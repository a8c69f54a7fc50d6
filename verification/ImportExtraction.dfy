/** A whole extraction over several windows, resumed as often as needed. */
module ImportExtraction {
  import opened Sequences
  import opened Sorting
  import opened ImportRows
  import opened ImportWindows
  import opened ImportChunks

  /** What a durable runner has stored about one window. */
  datatype ChunkState = ChunkState(index: nat, start: nat, end: nat, extraction: Option<seq<Row>>,
    permanentlyFailed: bool)

  datatype Disposition = Rethrow | RetryLater | GiveUp

  /** One attempt at one window: the rows the model sent, if any, and what a failure would lead to. */
  datatype Answer = Answer(rows: Option<seq<Row>>, onFailure: Disposition)

  datatype Extraction =
    | NoImages
    | InvalidLayout
    | Aborted
    | StillPending(chunks: seq<nat>)
    | AllFailed
    | ChunkIdsCollide
    | Read(rows: seq<Row>, failedChunks: seq<nat>, windows: seq<Window>)

  function Failure(d: Disposition): ChunkRun {
    match d
    case Rethrow => Rejected
    case RetryLater => ToRetry
    case GiveUp => GivenUp
  }

  function RunOf(answer: Answer, w: Window, chunkCount: nat): ChunkRun {
    if answer.rows.None? then Failure(answer.onFailure)
    else
      var parsed := Parse(answer.rows.value, w.end - w.start);
      if parsed.Rows? then Extracted(RebaseChunkBatch(parsed.rows, w, chunkCount)) else Failure(answer.onFailure)
  }

  method ExtractChunk(answer: Answer, w: Window, chunkCount: nat) returns (run: ChunkRun)
    ensures run == RunOf(answer, w, chunkCount)
  {
    hide Parse, RebaseChunkBatch;
    if answer.rows.None? { return Failure(answer.onFailure); }
    var parsed := ParseImportExtractResponse(answer.rows.value, w.end - w.start);
    if parsed.Rows? { return Extracted(RebaseChunkBatch(parsed.rows, w, chunkCount)); }
    return Failure(answer.onFailure);
  }

  type Store = map<nat, ChunkState>

  /** A window that is already settled keeps what is stored; the others are attempted. */
  function RunFor(store: Store, answers: Window -> Answer, chunkCount: nat): Window -> ChunkRun {
    (w: Window) =>
      if w.index in store && store[w.index].extraction.Some? then Extracted(store[w.index].extraction.value)
      else if w.index in store && store[w.index].permanentlyFailed then GivenUp
      else RunOf(answers(w), w, chunkCount)
  }

  function IsRejected(run: Window -> ChunkRun): Window -> bool { (w: Window) => run(w).Rejected? }

  function IsToRetry(run: Window -> ChunkRun): Window -> bool { (w: Window) => run(w).ToRetry? }

  function IsGivenUp(run: Window -> ChunkRun): Window -> bool { (w: Window) => run(w).GivenUp? }

  function IsExtracted(run: Window -> ChunkRun): Window -> bool { (w: Window) => run(w).Extracted? }

  function IndexOf(): Window -> nat { (w: Window) => w.index }

  function IndicesOf(windows: seq<Window>, p: Window -> bool): seq<nat> { Map(Filter(windows, p), IndexOf()) }

  /** The outcome as a function of how each window ended. */
  function Outcome(windows: seq<Window>, run: Window -> ChunkRun): Extraction {
    if windows == [] then NoImages
    else if Filter(windows, IsRejected(run)) != [] then Aborted
    else if Filter(windows, IsToRetry(run)) != [] then StillPending(IndicesOf(windows, IsToRetry(run)))
    else if Filter(windows, IsExtracted(run)) == [] then AllFailed
    else if !DistinctRows(Collected(windows, run)) then ChunkIdsCollide
    else Read(Sort(Collected(windows, run), ScreenshotOrder()), IndicesOf(windows, IsGivenUp(run)), windows)
  }

  ghost predicate Numbered(windows: seq<Window>) {
    forall i, j :: 0 <= i < j < |windows| ==> windows[i].index < windows[j].index
  }

  ghost predicate Ascending(windows: seq<Window>) {
    forall i, j :: 0 <= i < j < |windows| ==> windows[i].index <= windows[j].index
  }

  lemma TilesAreNumbered(windows: seq<Window>, imageCount: nat)
    requires Tiles(windows, 0, imageCount, 0)
    ensures Numbered(windows)
  {
    OwnedAfter(windows, 0, imageCount, 0);
    hide Tiles;
  }

  function RecordedRange(): ChunkState -> Range { (c: ChunkState) => Range(c.index, c.start, c.end) }

  /** The windows of a layout of `n` screenshots, recorded in any order. */
  ghost predicate RecordedFrom(recorded: seq<ChunkState>, windows: seq<Window>, n: nat) {
    Tiles(windows, 0, n, 0) && multiset(Map(recorded, RecordedRange())) == multiset(Map(windows, RangeOf()))
  }

  lemma RecordedRebuilds(recorded: seq<ChunkState>, windows: seq<Window>, n: nat)
    requires RecordedFrom(recorded, windows, n)
    ensures ImportChunkLayout(Map(recorded, RecordedRange())) == windows && Numbered(windows)
  {
    RecordedRangesRebuild(windows, n, Map(recorded, RecordedRange()));
    TilesAreNumbered(windows, n);
  }

  /** A layout comes in the order of the indices, also when one is recorded twice. */
  lemma LayoutAscends(ranges: seq<Range>)
    ensures Ascending(ImportChunkLayout(ranges))
  {
    assert TotalOrder(ByIndex());
    SortOrdered(ranges, ByIndex());
    var ordered := Sort(ranges, ByIndex());
    hide Sort;
    forall i, j | 0 <= i < j < |ordered| ensures ordered[i].index <= ordered[j].index {
      assert ByIndex()(ordered[i], ordered[j]);
    }
  }

  /** A resumed job works on the windows it recorded, a new one on a fresh layout. */
  method ImportPipelineChunks(imageCount: nat, chunkSize: int, recorded: seq<ChunkState>) returns (r: Windows)
    ensures recorded != [] ==> r == Layout(ImportChunkLayout(Map(recorded, RecordedRange()))) && Ascending(r.windows)
    ensures recorded == [] && r.Layout? ==> Tiles(r.windows, 0, imageCount, 0) && Numbered(r.windows)
    ensures recorded == [] && 1 < chunkSize ==> r.Layout?
    ensures forall windows, n :: recorded != [] && RecordedFrom(recorded, windows, n) ==>
      r == Layout(windows) && Numbered(windows)
  {
    if recorded != [] {
      hide *;
      forall windows, n | RecordedFrom(recorded, windows, n)
        ensures ImportChunkLayout(Map(recorded, RecordedRange())) == windows && Numbered(windows)
      {
        RecordedRebuilds(recorded, windows, n);
      }
      LayoutAscends(Map(recorded, RecordedRange()));
      return Layout(ImportChunkLayout(Map(recorded, RecordedRange())));
    }
    hide *;
    r := ImportImageChunks(imageCount, chunkSize);
    if r.Layout? { TilesAreNumbered(r.windows, imageCount); }
  }

  // ---- the computation ----------------------------------------------------------------------------------

  function AtMost(): (nat, nat) -> bool { (a: nat, b: nat) => a <= b }

  lemma {:induction false} IndicesAscend(windows: seq<Window>, p: Window -> bool)
    requires Ascending(windows)
    ensures Ordered(IndicesOf(windows, p), AtMost())
    ensures forall w :: w in Filter(windows, p) && windows != [] ==> w.index <= windows[|windows| - 1].index
  {
    if windows != [] {
      var n := |windows| - 1;
      IndicesAscend(windows[..n], p);
      var init := Filter(windows[..n], p);
      if p(windows[n]) {
        MapConcat(init, [windows[n]], IndexOf());
        forall w | w in init ensures w.index <= windows[n].index {
          var i :| 0 <= i < n && windows[i] == w;
        }
      }
    }
  }

  lemma SortedIndices(windows: seq<Window>, p: Window -> bool, found: seq<nat>)
    requires Ascending(windows) && multiset(found) == multiset(IndicesOf(windows, p))
    ensures Sort(found, AtMost()) == IndicesOf(windows, p)
  {
    var indices := IndicesOf(windows, p);
    IndicesAscend(windows, p);
    assert TotalOrder(AtMost());
    assert Antisymmetric(indices, AtMost());
    SortUnique(indices, found, AtMost());
    SortOfOrdered(indices, AtMost());
  }

  function HasExtraction(store: Store): Window -> bool {
    (w: Window) => w.index in store && store[w.index].extraction.Some?
  }

  function HasFailed(store: Store): Window -> bool {
    (w: Window) => w.index in store && store[w.index].extraction.None? && store[w.index].permanentlyFailed
  }

  function Unsettled(store: Store): Window -> bool {
    (w: Window) => !HasExtraction(store)(w) && !HasFailed(store)(w)
  }

  function StoreOf(recorded: seq<ChunkState>): Store {
    if recorded == [] then map[] else StoreOf(recorded[..|recorded| - 1])[recorded[|recorded| - 1].index :=
      recorded[|recorded| - 1]]
  }

  /** The batches of these windows by index, the last one where an index repeats. */
  function Batches(finished: seq<Window>, run: Window -> ChunkRun): map<nat, seq<Row>> {
    if finished == [] then map[]
    else
      var w := finished[|finished| - 1];
      var before := Batches(finished[..|finished| - 1], run);
      if run(w).Extracted? then before[w.index := run(w).batch] else before
  }

  lemma BatchesMore(finished: seq<Window>, w: Window, run: Window -> ChunkRun)
    requires run(w).Extracted?
    ensures Batches(finished + [w], run) == Batches(finished, run)[w.index := run(w).batch]
  {
    assert (finished + [w])[..|finished|] == finished;
  }

  /** The windows that have a batch, in the order in which the batches are collected. */
  function Finished(windows: seq<Window>, store: Store, run: Window -> ChunkRun): seq<Window> {
    Filter(windows, HasExtraction(store)) + Filter(Filter(windows, Unsettled(store)), IsExtracted(run))
  }

  /** What is read for a window is what was read for its index. */
  function Shared(done: map<nat, seq<Row>>): Window -> ChunkRun {
    (w: Window) => if w.index in done then Extracted(done[w.index]) else ToRetry
  }

  /** The outcome when an index may repeat: batches are kept by index. */
  function OutcomeBy(windows: seq<Window>, run: Window -> ChunkRun, done: map<nat, seq<Row>>): Extraction {
    if windows == [] then NoImages
    else if Filter(windows, IsRejected(run)) != [] then Aborted
    else if Filter(windows, IsToRetry(run)) != [] then StillPending(IndicesOf(windows, IsToRetry(run)))
    else if done == map[] then AllFailed
    else if !DistinctRows(Collected(windows, Shared(done))) then ChunkIdsCollide
    else
      Read(Sort(Collected(windows, Shared(done)), ScreenshotOrder()), IndicesOf(windows, IsGivenUp(run)), windows)
  }

  /** `done` holds the batches of exactly these windows. */
  ghost predicate Holds(done: map<nat, seq<Row>>, finished: seq<Window>, run: Window -> ChunkRun) {
    && (forall k :: k in done ==> exists j :: 0 <= j < |finished| && finished[j].index == k)
    && (forall w :: w in finished ==> run(w).Extracted? && w.index in done && done[w.index] == run(w).batch)
  }

  lemma HoldsMore(
    windows: seq<Window>, done: map<nat, seq<Row>>, finished: seq<Window>, run: Window -> ChunkRun, w: Window)
    requires Numbered(windows) && Holds(done, finished, run)
    requires w in windows && run(w).Extracted? && forall x :: x in finished ==> x in windows
    ensures Holds(done[w.index := run(w).batch], finished + [w], run)
  {
    forall x | x in finished && x.index == w.index ensures x == w {
      var i :| 0 <= i < |windows| && windows[i] == x;
      var j :| 0 <= j < |windows| && windows[j] == w;
    }
    var more := done[w.index := run(w).batch];
    forall k | k in more ensures exists j :: 0 <= j < |finished + [w]| && (finished + [w])[j].index == k {
      if k == w.index {
        assert (finished + [w])[|finished|].index == k;
      } else {
        var j :| 0 <= j < |finished| && finished[j].index == k;
        assert (finished + [w])[j].index == k;
      }
    }
  }

  lemma HeldIsExtracted(
    windows: seq<Window>, done: map<nat, seq<Row>>, finished: seq<Window>, run: Window -> ChunkRun, w: Window)
    requires Numbered(windows) && Holds(done, finished, run) && w in windows
    requires forall x :: x in finished <==> x in windows && run(x).Extracted?
    ensures w.index in done <==> run(w).Extracted?
    ensures run(w).Extracted? ==> done[w.index] == run(w).batch
  {
    if w.index in done {
      var k :| 0 <= k < |finished| && finished[k].index == w.index;
      assert finished[k] in finished;
      var i :| 0 <= i < |windows| && windows[i] == finished[k];
      var j :| 0 <= j < |windows| && windows[j] == w;
      assert i == j;
    }
  }

  /** The three lists of windows the first pass makes, after `n` of them. */
  ghost predicate StoreRead(
    windows: seq<Window>, n: nat, store: Store, run: Window -> ChunkRun, done: map<nat, seq<Row>>, failed: seq<nat>,
    pending: seq<Window>)
    requires n <= |windows|
  {
    && done == Batches(Filter(windows[..n], HasExtraction(store)), run)
    && failed == IndicesOf(windows[..n], HasFailed(store))
    && pending == Filter(windows[..n], Unsettled(store))
  }

  lemma IndicesStep(windows: seq<Window>, i: nat, p: Window -> bool)
    requires i < |windows|
    ensures p(windows[i]) ==> Filter(windows[..i + 1], p) == Filter(windows[..i], p) + [windows[i]]
    ensures p(windows[i]) ==> IndicesOf(windows[..i + 1], p) == IndicesOf(windows[..i], p) + [windows[i].index]
    ensures !p(windows[i]) ==>
      Filter(windows[..i + 1], p) == Filter(windows[..i], p) &&
      IndicesOf(windows[..i + 1], p) == IndicesOf(windows[..i], p)
  {
    FilterStep(windows, i, p);
    MapConcat(Filter(windows[..i], p), [windows[i]], IndexOf());
  }

  lemma ReadDone(
    windows: seq<Window>, i: nat, store: Store, run: Window -> ChunkRun, done: map<nat, seq<Row>>, failed: seq<nat>,
    pending: seq<Window>)
    requires i < |windows| && StoreRead(windows, i, store, run, done, failed, pending)
    requires HasExtraction(store)(windows[i]) && run(windows[i]).Extracted?
    ensures StoreRead(windows, i + 1, store, run, done[windows[i].index := run(windows[i]).batch], failed, pending)
  {
    IndicesStep(windows, i, HasExtraction(store));
    IndicesStep(windows, i, HasFailed(store));
    IndicesStep(windows, i, Unsettled(store));
    BatchesMore(Filter(windows[..i], HasExtraction(store)), windows[i], run);
    hide Batches, Filter, IndicesOf;
  }

  lemma ReadOther(
    windows: seq<Window>, i: nat, store: Store, run: Window -> ChunkRun, done: map<nat, seq<Row>>, failed: seq<nat>,
    pending: seq<Window>)
    requires i < |windows| && StoreRead(windows, i, store, run, done, failed, pending) &&
      !HasExtraction(store)(windows[i])
    ensures HasFailed(store)(windows[i]) ==> StoreRead(windows, i + 1, store, run, done, failed + [windows[i].index],
      pending)
    ensures !HasFailed(store)(windows[i]) ==> StoreRead(windows, i + 1, store, run, done, failed,
      pending + [windows[i]])
  {
    IndicesStep(windows, i, HasExtraction(store));
    IndicesStep(windows, i, HasFailed(store));
    IndicesStep(windows, i, Unsettled(store));
    hide Batches, Filter, IndicesOf;
  }

  lemma Classified(store: Store, w: Window)
    ensures HasExtraction(store)(w) <==> w.index in store && store[w.index].extraction.Some?
    ensures !HasExtraction(store)(w) ==> (HasFailed(store)(w) <==> w.index in store && store[w.index].permanentlyFailed)
  {
  }

  method ReadStore(windows: seq<Window>, store: Store, ghost run: Window -> ChunkRun)
    returns (done: map<nat, seq<Row>>, failed: seq<nat>, pending: seq<Window>)
    requires forall w :: w in windows && HasExtraction(store)(w) ==>
      run(w) == Extracted(store[w.index].extraction.value)
    ensures StoreRead(windows, |windows|, store, run, done, failed, pending)
  {
    done, failed, pending := map[], [], [];
    assert StoreRead(windows, 0, store, run, done, failed, pending);
    hide *;
    for i := 0 to |windows|
      invariant StoreRead(windows, i, store, run, done, failed, pending)
    {
      var w := windows[i];
      Classified(store, w);
      if w.index in store && store[w.index].extraction.Some? {
        ReadDone(windows, i, store, run, done, failed, pending);
        done := done[w.index := store[w.index].extraction.value];
      } else if w.index in store && store[w.index].permanentlyFailed {
        ReadOther(windows, i, store, run, done, failed, pending);
        failed := failed + [w.index];
      } else {
        ReadOther(windows, i, store, run, done, failed, pending);
        pending := pending + [w];
      }
    }
  }

  /** What the second pass has noted of the first `n` outcomes. */
  ghost predicate OutcomesNoted(
    pending: seq<Window>, n: nat, before: seq<Window>, run: Window -> ChunkRun, done: map<nat, seq<Row>>,
    failed: seq<nat>, failedBefore: seq<nat>, retrying: seq<nat>)
    requires n <= |pending|
  {
    && done == Batches(before + Filter(pending[..n], IsExtracted(run)), run)
    && failed == failedBefore + IndicesOf(pending[..n], IsGivenUp(run))
    && retrying == IndicesOf(pending[..n], IsToRetry(run))
  }

  lemma NoteRead(
    pending: seq<Window>, i: nat, before: seq<Window>, run: Window -> ChunkRun,
    done: map<nat, seq<Row>>, failed: seq<nat>, failedBefore: seq<nat>, retrying: seq<nat>)
    requires i < |pending| && OutcomesNoted(pending, i, before, run, done, failed, failedBefore, retrying)
    requires run(pending[i]).Extracted?
    ensures OutcomesNoted(pending, i + 1, before, run, done[pending[i].index := run(pending[i]).batch], failed,
      failedBefore, retrying)
  {
    IndicesStep(pending, i, IsExtracted(run));
    IndicesStep(pending, i, IsGivenUp(run));
    IndicesStep(pending, i, IsToRetry(run));
    var finished := before + Filter(pending[..i], IsExtracted(run));
    BatchesMore(finished, pending[i], run);
    assert finished + [pending[i]] == before + (Filter(pending[..i], IsExtracted(run)) + [pending[i]]);
    hide Batches, Filter, IndicesOf;
  }

  lemma Assoc<T>(a: seq<T>, b: seq<T>, c: seq<T>)
    ensures a + (b + c) == (a + b) + c
  {
  }

  lemma NoteSteps(pending: seq<Window>, i: nat, run: Window -> ChunkRun)
    requires i < |pending| && !run(pending[i]).Extracted?
    ensures Filter(pending[..i + 1], IsExtracted(run)) == Filter(pending[..i], IsExtracted(run))
    ensures IndicesOf(pending[..i + 1], IsGivenUp(run)) ==
      if run(pending[i]).GivenUp? then IndicesOf(pending[..i], IsGivenUp(run)) + [pending[i].index]
      else IndicesOf(pending[..i], IsGivenUp(run))
    ensures IndicesOf(pending[..i + 1], IsToRetry(run)) ==
      if run(pending[i]).ToRetry? then IndicesOf(pending[..i], IsToRetry(run)) + [pending[i].index]
      else IndicesOf(pending[..i], IsToRetry(run))
  {
    IndicesStep(pending, i, IsExtracted(run));
    IndicesStep(pending, i, IsGivenUp(run));
    IndicesStep(pending, i, IsToRetry(run));
    hide Filter, IndicesOf;
  }

  lemma NoteOther(
    pending: seq<Window>, i: nat, before: seq<Window>, run: Window -> ChunkRun, done: map<nat, seq<Row>>,
    failed: seq<nat>, failedBefore: seq<nat>, retrying: seq<nat>)
    requires i < |pending| && OutcomesNoted(pending, i, before, run, done, failed, failedBefore, retrying)
    ensures run(pending[i]).GivenUp? ==>
      OutcomesNoted(pending, i + 1, before, run, done, failed + [pending[i].index], failedBefore, retrying)
    ensures run(pending[i]).ToRetry? ==>
      OutcomesNoted(pending, i + 1, before, run, done, failed, failedBefore, retrying + [pending[i].index])
  {
    if !run(pending[i]).Extracted? { NoteSteps(pending, i, run); }
    Assoc(failedBefore, IndicesOf(pending[..i], IsGivenUp(run)), [pending[i].index]);
    hide Batches, Filter, IndicesOf, IsExtracted, IsGivenUp, IsToRetry;
  }

  lemma NothingNoted(
    pending: seq<Window>, before: seq<Window>, run: Window -> ChunkRun, done: map<nat, seq<Row>>, failed: seq<nat>)
    requires done == Batches(before, run)
    ensures OutcomesNoted(pending, 0, before, run, done, failed, failed, [])
  {
    assert before + [] == before;
    assert failed + [] == failed;
    hide Batches;
  }

  method NoteOutcomes(
    pending: seq<Window>, runs: seq<ChunkRun>, ghost before: seq<Window>,
    ghost run: Window -> ChunkRun, done0: map<nat, seq<Row>>, failedBefore: seq<nat>)
    returns (done: map<nat, seq<Row>>, failed: seq<nat>, retrying: seq<nat>)
    requires |runs| == |pending| && forall i :: 0 <= i < |runs| ==> runs[i] == run(pending[i]) && !runs[i].Rejected?
    requires done0 == Batches(before, run)
    ensures OutcomesNoted(pending, |pending|, before, run, done, failed, failedBefore, retrying)
  {
    done, failed, retrying := done0, failedBefore, [];
    NothingNoted(pending, before, run, done, failedBefore);
    hide *;
    for i := 0 to |pending|
      invariant OutcomesNoted(pending, i, before, run, done, failed, failedBefore, retrying)
    {
      assert runs[i] == run(pending[i]) && !runs[i].Rejected?;
      match runs[i]
      case Extracted(batch) =>
        NoteRead(pending, i, before, run, done, failed, failedBefore, retrying);
        done := done[pending[i].index := batch];
      case ToRetry =>
        NoteOther(pending, i, before, run, done, failed, failedBefore, retrying);
        retrying := retrying + [pending[i].index];
      case GivenUp =>
        NoteOther(pending, i, before, run, done, failed, failedBefore, retrying);
        failed := failed + [pending[i].index];
    }
  }

  lemma ConcatStep<T>(batches: seq<seq<T>>, batch: seq<T>)
    ensures Concat(batches + [batch]) == Concat(batches) + batch
  {
    assert (batches + [batch])[..|batches|] == batches;
  }

  lemma {:induction false} CollectedStep(windows: seq<Window>, i: nat, run: Window -> ChunkRun)
    requires i < |windows|
    ensures Collected(windows[..i + 1], run) ==
      Collected(windows[..i], run) + if run(windows[i]).Extracted? then run(windows[i]).batch else []
  {
    if i == 0 {
      assert windows[..1][1..] == [] && windows[..0] == [];
    } else {
      CollectedStep(windows[1..], i - 1, run);
      assert windows[..i + 1][1..] == windows[1..][..i] && windows[..i][1..] == windows[1..][..i - 1];
    }
  }

  method BatchesInOrder(windows: seq<Window>, done: map<nat, seq<Row>>) returns (batches: seq<seq<Row>>)
    ensures Concat(batches) == Collected(windows, Shared(done))
  {
    batches := [];
    for i := 0 to |windows|
      invariant Concat(batches) == Collected(windows[..i], Shared(done))
    {
      var w := windows[i];
      CollectedStep(windows, i, Shared(done));
      assert Shared(done)(w) == if w.index in done then Extracted(done[w.index]) else ToRetry;
      hide *;
      if w.index in done {
        ConcatStep(batches, done[w.index]);
        batches := batches + [done[w.index]];
      }
    }
    assert windows[..|windows|] == windows;
  }

  // ---- putting the passes together ----------------------------------------------------------------------

  lemma {:induction false} FailedInTwoPasses(windows: seq<Window>, store: Store, run: Window -> ChunkRun)
    requires forall w :: w in windows && HasExtraction(store)(w) ==> run(w).Extracted?
    requires forall w :: w in windows && HasFailed(store)(w) ==> run(w).GivenUp?
    ensures multiset(IndicesOf(windows, HasFailed(store)) +
      IndicesOf(Filter(windows, Unsettled(store)), IsGivenUp(run)))
      == multiset(IndicesOf(windows, IsGivenUp(run)))
  {
    if windows != [] {
      var n := |windows| - 1;
      var w := windows[n];
      FailedInTwoPasses(windows[..n], store, run);
      assert windows[..n + 1] == windows;
      IndicesStep(windows, n, HasFailed(store));
      IndicesStep(windows, n, IsGivenUp(run));
      PendingStep(windows, n, store, run);
      hide IndicesOf, Filter;
    }
  }

  lemma PendingStep(windows: seq<Window>, i: nat, store: Store, run: Window -> ChunkRun)
    requires i < |windows|
    ensures var before, after := Filter(windows[..i], Unsettled(store)), Filter(windows[..i + 1], Unsettled(store));
      IndicesOf(after, IsGivenUp(run)) == if Unsettled(store)(windows[i]) && run(windows[i]).GivenUp?
        then IndicesOf(before, IsGivenUp(run)) + [windows[i].index] else IndicesOf(before, IsGivenUp(run))
  {
    IndicesStep(windows, i, Unsettled(store));
    var before, after := Filter(windows[..i], Unsettled(store)), Filter(windows[..i + 1], Unsettled(store));
    if Unsettled(store)(windows[i]) {
      hide Filter, IndicesOf;
      assert after[..|before|] == before && after[..|before| + 1] == after;
      IndicesStep(after, |before|, IsGivenUp(run));
    }
  }

  lemma RunCases(store: Store, answers: Window -> Answer, chunkCount: nat, w: Window)
    ensures var run := RunFor(store, answers, chunkCount)(w);
      && (HasExtraction(store)(w) ==> run == Extracted(store[w.index].extraction.value))
      && (HasFailed(store)(w) ==> run == GivenUp)
      && (Unsettled(store)(w) ==> run == RunOf(answers(w), w, chunkCount))
  {
    hide RunOf;
  }

  lemma PendingRuns(windows: seq<Window>, store: Store, answers: Window -> Answer, w: Window)
    requires w in Filter(windows, Unsettled(store))
    ensures w in windows && RunFor(store, answers, |windows|)(w) == RunOf(answers(w), w, |windows|)
  {
    hide RunOf, Filter, RunFor, Unsettled;
    FilterMember(windows, Unsettled(store), w);
    RunCases(store, answers, |windows|, w);
  }

  lemma SettledRuns(windows: seq<Window>, store: Store, answers: Window -> Answer)
    ensures var run := RunFor(store, answers, |windows|);
      && (forall w :: w in windows && HasExtraction(store)(w) ==> run(w) == Extracted(store[w.index].extraction.value))
      && (forall w :: w in windows && HasFailed(store)(w) ==> run(w).GivenUp?)
  {
    hide RunOf;
  }

  /** An outcome a settled window cannot have is found among the pending ones only. */
  lemma OnlyPending(windows: seq<Window>, store: Store, answers: Window -> Answer, w: Window)
    requires var run := RunFor(store, answers, |windows|)(w); w in windows && (run.Rejected? || run.ToRetry?)
    ensures w in Filter(windows, Unsettled(store))
  {
    hide RunOf, Filter, RunFor;
    RunCases(store, answers, |windows|, w);
    FilterMember(windows, Unsettled(store), w);
  }

  lemma RejectedArePending(windows: seq<Window>, store: Store, answers: Window -> Answer)
    ensures var run, pending := RunFor(store, answers, |windows|), Filter(windows, Unsettled(store));
      Filter(windows, IsRejected(run)) != [] <==> exists i :: 0 <= i < |pending| && run(pending[i]).Rejected?
  {
    hide RunOf, RunFor, Filter, Unsettled;
    var run, pending := RunFor(store, answers, |windows|), Filter(windows, Unsettled(store));
    var rejected := Filter(windows, IsRejected(run));
    if rejected != [] {
      FilterMember(windows, IsRejected(run), rejected[0]);
      OnlyPending(windows, store, answers, rejected[0]);
    }
    if i :| 0 <= i < |pending| && run(pending[i]).Rejected? {
      FilterMember(windows, Unsettled(store), pending[i]);
      FilterMember(windows, IsRejected(run), pending[i]);
    }
  }

  lemma RetriesArePending(windows: seq<Window>, store: Store, answers: Window -> Answer)
    ensures var run := RunFor(store, answers, |windows|);
      IndicesOf(Filter(windows, Unsettled(store)), IsToRetry(run)) == IndicesOf(windows, IsToRetry(run))
  {
    var run := RunFor(store, answers, |windows|);
    forall w | w in windows && IsToRetry(run)(w) ensures Unsettled(store)(w) {
      OnlyPending(windows, store, answers, w);
      FilterMember(windows, Unsettled(store), w);
    }
    hide RunOf, RunFor, Filter, Unsettled;
    FilterWithin(windows, Unsettled(store), IsToRetry(run));
  }

  lemma FinishedAreExtracted(windows: seq<Window>, store: Store, answers: Window -> Answer, w: Window)
    ensures var run := RunFor(store, answers, |windows|);
      w in Finished(windows, store, run) <==>
        w in windows && run(w).Extracted?
  {
    var run := RunFor(store, answers, |windows|);
    FilterMember(windows, HasExtraction(store), w);
    FilterMember(windows, Unsettled(store), w);
    FilterMember(Filter(windows, Unsettled(store)), IsExtracted(run), w);
    RunCases(store, answers, |windows|, w);
    assert HasExtraction(store)(w) || HasFailed(store)(w) || Unsettled(store)(w);
    hide RunOf, RunFor, Filter, Unsettled, HasExtraction, HasFailed;
  }

  lemma Gathered(windows: seq<Window>, store: Store, answers: Window -> Answer, done: map<nat, seq<Row>>)
    requires Numbered(windows)
    requires var run := RunFor(store, answers, |windows|);
      Holds(done, Finished(windows, store, run), run)
    ensures var run := RunFor(store, answers, |windows|);
      && (forall w :: w in windows ==>
        (w.index in done <==> run(w).Extracted?) && (run(w).Extracted? ==> done[w.index] == run(w).batch))
      && (done == map[] <==> Filter(windows, IsExtracted(run)) == [])
  {
    var run := RunFor(store, answers, |windows|);
    var finished := Finished(windows, store, run);
    forall w ensures w in finished <==> w in windows && run(w).Extracted?
    { FinishedAreExtracted(windows, store, answers, w); }
    hide *;
    forall w | w in windows ensures (w.index in done <==> run(w).Extracted?) &&
      (run(w).Extracted? ==> done[w.index] == run(w).batch) {
      HeldIsExtracted(windows, done, finished, run, w);
    }
    NothingDone(windows, done, finished, run);
  }

  lemma NothingDone(windows: seq<Window>, done: map<nat, seq<Row>>, finished: seq<Window>, run: Window -> ChunkRun)
    requires Holds(done, finished, run) && forall w :: w in finished <==> w in windows && run(w).Extracted?
    ensures done == map[] <==> Filter(windows, IsExtracted(run)) == []
  {
    hide Filter;
    var extracted := Filter(windows, IsExtracted(run));
    if extracted != [] { FilterMember(windows, IsExtracted(run), extracted[0]); }
    if finished != [] {
      FilterMember(windows, IsExtracted(run), finished[0]);
      assert finished[0] in extracted;
    }
  }

  method AttemptAll(windows: seq<Window>, pending: seq<Window>, store: Store, answers: Window -> Answer)
    returns (runs: seq<ChunkRun>)
    requires pending == Filter(windows, Unsettled(store))
    ensures |runs| == |pending| && forall i :: 0 <= i < |runs| ==>
      runs[i] == RunFor(store, answers, |windows|)(pending[i])
  {
    hide *;
    runs := [];
    for i := 0 to |pending|
      invariant |runs| == i && forall j :: 0 <= j < i ==> runs[j] == RunFor(store, answers, |windows|)(pending[j])
    {
      PendingRuns(windows, store, answers, pending[i]);
      var run := ExtractChunk(answers(pending[i]), pending[i], |windows|);
      runs := runs + [run];
    }
  }

  method IndexStore(recorded: seq<ChunkState>) returns (store: Store)
    ensures store == StoreOf(recorded)
  {
    store := map[];
    for i := 0 to |recorded|
      invariant store == StoreOf(recorded[..i])
    {
      assert recorded[..i + 1][..i] == recorded[..i];
      store := store[recorded[i].index := recorded[i]];
    }
    assert recorded[..|recorded|] == recorded;
  }

  /** One run of the job: settled windows are taken from the store, the others are attempted. */
  method ExtractAllChunks(windows: seq<Window>, recorded: seq<ChunkState>, answers: Window -> Answer)
    returns (r: Extraction)
    requires Ascending(windows)
    ensures var store := StoreOf(recorded); var run := RunFor(store, answers, |windows|);
      r == OutcomeBy(windows, run, Batches(Finished(windows, store, run), run))
    ensures Numbered(windows) ==> r == Outcome(windows, RunFor(StoreOf(recorded), answers, |windows|))
  {
    hide *;
    var store := IndexStore(recorded);
    ghost var run := RunFor(store, answers, |windows|);
    ghost var batchOf := Batches(Finished(windows, store, run), run);
    OutcomeCases(windows, run, batchOf);
    if Numbered(windows) { OutcomeByIndex(windows, store, answers); }
    if windows == [] { return NoImages; }
    SettledRuns(windows, store, answers);
    var done, failed, pending := ReadStore(windows, store, run);
    WholeStoreRead(windows, store, run, done, failed, pending);
    var runs := AttemptAll(windows, pending, store, answers);
    RejectedArePending(windows, store, answers);
    if exists i :: 0 <= i < |runs| && runs[i].Rejected? { return Aborted; }
    var retrying;
    done, failed, retrying := NoteOutcomes(pending, runs, Filter(windows, HasExtraction(store)), run, done, failed);
    AllNoted(windows, store, answers, done, failed, retrying);
    if retrying != [] { return StillPending(Sort(retrying, AtMost())); }
    if done == map[] { return AllFailed; }
    var batches := BatchesInOrder(windows, done);
    var merged := MergeChunkBatches(batches);
    if merged.RepeatedAcrossChunks? { return ChunkIdsCollide; }
    return Read(merged.rows, Sort(failed, AtMost()), windows);
  }

  lemma OutcomeCases(windows: seq<Window>, run: Window -> ChunkRun, done: map<nat, seq<Row>>)
    ensures var r := OutcomeBy(windows, run, done);
      if windows == [] then r == NoImages
      else if Filter(windows, IsRejected(run)) != [] then r == Aborted
      else if Filter(windows, IsToRetry(run)) != [] then r == StillPending(IndicesOf(windows, IsToRetry(run)))
      else if done == map[] then r == AllFailed
      else if !DistinctRows(Collected(windows, Shared(done))) then r == ChunkIdsCollide
      else
        r == Read(Sort(Collected(windows, Shared(done)), ScreenshotOrder()), IndicesOf(windows, IsGivenUp(run)),
          windows)
  {
  }

  lemma WholeStoreRead(
    windows: seq<Window>, store: Store, run: Window -> ChunkRun, done: map<nat, seq<Row>>, failed: seq<nat>,
    pending: seq<Window>)
    requires StoreRead(windows, |windows|, store, run, done, failed, pending)
    ensures done == Batches(Filter(windows, HasExtraction(store)), run)
    ensures failed == IndicesOf(windows, HasFailed(store)) && pending == Filter(windows, Unsettled(store))
  {
    assert windows[..|windows|] == windows;
    hide Batches, Filter, IndicesOf;
  }

  lemma AllNoted(
    windows: seq<Window>, store: Store, answers: Window -> Answer, done: map<nat, seq<Row>>, failed: seq<nat>,
    retrying: seq<nat>)
    requires Ascending(windows)
    requires var run, pending := RunFor(store, answers, |windows|), Filter(windows, Unsettled(store));
      OutcomesNoted(pending, |pending|, Filter(windows, HasExtraction(store)), run, done, failed,
        IndicesOf(windows, HasFailed(store)), retrying)
    ensures var run := RunFor(store, answers, |windows|);
      && retrying == Sort(retrying, AtMost()) == IndicesOf(windows, IsToRetry(run))
      && (retrying == [] <==> Filter(windows, IsToRetry(run)) == [])
      && Sort(failed, AtMost()) == IndicesOf(windows, IsGivenUp(run))
      && done == Batches(Finished(windows, store, run), run)
  {
    var run, pending := RunFor(store, answers, |windows|), Filter(windows, Unsettled(store));
    assert pending[..|pending|] == pending;
    SettledRuns(windows, store, answers);
    FailedInTwoPasses(windows, store, run);
    RetriesArePending(windows, store, answers);
    assert |IndicesOf(windows, IsToRetry(run))| == |Filter(windows, IsToRetry(run))|;
    hide Batches, Filter, IndicesOf, Ascending, Sort, RunFor;
    SortedIndices(windows, IsToRetry(run), retrying);
    SortedIndices(windows, IsGivenUp(run), failed);
  }

  // ---- windows with indices of their own ----------------------------------------------------------------

  lemma {:induction false} BatchesHold(windows: seq<Window>, finished: seq<Window>, run: Window -> ChunkRun)
    requires Numbered(windows) && forall w :: w in finished ==> w in windows && run(w).Extracted?
    ensures Holds(Batches(finished, run), finished, run)
  {
    if finished != [] {
      var n := |finished| - 1;
      LastSplit(finished);
      BatchesHold(windows, finished[..n], run);
      hide Batches, Holds, Numbered;
      BatchesMore(finished[..n], finished[n], run);
      HoldsMore(windows, Batches(finished[..n], run), finished[..n], run, finished[n]);
    }
  }

  lemma {:induction false} CollectedAs(windows: seq<Window>, f: Window -> ChunkRun, g: Window -> ChunkRun)
    requires forall w :: w in windows ==>
      (f(w).Extracted? <==> g(w).Extracted?) && (f(w).Extracted? ==> f(w).batch == g(w).batch)
    ensures Collected(windows, f) == Collected(windows, g)
  {
    if windows != [] {
      assert windows[0] in windows;
      CollectedAs(windows[1..], f, g);
    }
  }

  /** When no index repeats, the outcome is that of the windows themselves. */
  lemma OutcomeByIndex(windows: seq<Window>, store: Store, answers: Window -> Answer)
    requires Numbered(windows)
    ensures var run := RunFor(store, answers, |windows|);
      OutcomeBy(windows, run, Batches(Finished(windows, store, run), run)) == Outcome(windows, run)
  {
    hide *;
    var run := RunFor(store, answers, |windows|);
    var finished := Finished(windows, store, run);
    var done := Batches(finished, run);
    forall w ensures w in finished <==> w in windows && run(w).Extracted?
    { FinishedAreExtracted(windows, store, answers, w); }
    BatchesHold(windows, finished, run);
    Gathered(windows, store, answers, done);
    SharedRuns(windows, done, run);
    OutcomeSame(windows, done, run);
  }

  lemma SharedRuns(windows: seq<Window>, done: map<nat, seq<Row>>, run: Window -> ChunkRun)
    requires forall w :: w in windows ==>
      (w.index in done <==> run(w).Extracted?) && (run(w).Extracted? ==> done[w.index] == run(w).batch)
    ensures Collected(windows, Shared(done)) == Collected(windows, run)
  {
    CollectedAs(windows, Shared(done), run);
  }

  lemma OutcomeSame(windows: seq<Window>, done: map<nat, seq<Row>>, run: Window -> ChunkRun)
    requires done == map[] <==> Filter(windows, IsExtracted(run)) == []
    requires Collected(windows, Shared(done)) == Collected(windows, run)
    ensures OutcomeBy(windows, run, done) == Outcome(windows, run)
  {
    hide Filter, IndicesOf, Sort, Collected, DistinctRows, Shared;
  }

  // ---- the outcome depends on how each window ended, and on nothing else -------------------------------

  ghost predicate SameRuns(windows: seq<Window>, f: Window -> ChunkRun, g: Window -> ChunkRun) {
    forall w :: w in windows ==> f(w) == g(w)
  }

  lemma {:induction false} CollectedAgrees(windows: seq<Window>, f: Window -> ChunkRun, g: Window -> ChunkRun)
    requires SameRuns(windows, f, g)
    ensures Collected(windows, f) == Collected(windows, g)
  {
    if windows != [] {
      assert windows[0] in windows;
      CollectedAgrees(windows[1..], f, g);
    }
  }

  lemma EndsAgree(windows: seq<Window>, f: Window -> ChunkRun, g: Window -> ChunkRun)
    requires SameRuns(windows, f, g)
    ensures Filter(windows, IsRejected(f)) == Filter(windows, IsRejected(g))
    ensures Filter(windows, IsToRetry(f)) == Filter(windows, IsToRetry(g))
    ensures Filter(windows, IsExtracted(f)) == Filter(windows, IsExtracted(g))
    ensures Filter(windows, IsGivenUp(f)) == Filter(windows, IsGivenUp(g))
  {
    hide Filter;
    FilterAgrees(windows, IsRejected(f), IsRejected(g));
    FilterAgrees(windows, IsToRetry(f), IsToRetry(g));
    FilterAgrees(windows, IsExtracted(f), IsExtracted(g));
    FilterAgrees(windows, IsGivenUp(f), IsGivenUp(g));
  }

  lemma {:induction false} OutcomeAgrees(windows: seq<Window>, f: Window -> ChunkRun, g: Window -> ChunkRun)
    requires SameRuns(windows, f, g)
    ensures Outcome(windows, f) == Outcome(windows, g)
  {
    CollectedAgrees(windows, f, g);
    EndsAgree(windows, f, g);
    hide Filter, Collected, DistinctRows, Sort, SameRuns, IsRejected, IsToRetry, IsExtracted, IsGivenUp;
  }

  // ---- runs that follow each other ----------------------------------------------------------------------

  /** What settles is stored: a batch, or that the window is given up. */
  function Saved(store: Store, w: Window, run: ChunkRun): Store {
    match run
    case Extracted(batch) => store[w.index := ChunkState(w.index, w.start, w.end, Some(batch), false)]
    case GivenUp => store[w.index := ChunkState(w.index, w.start, w.end, None, true)]
    case ToRetry => store
    case Rejected => store
  }

  /** The windows settle in some order. */
  function AfterSettling(store: Store, order: seq<Window>, run: Window -> ChunkRun): Store {
    if order == [] then store
    else Saved(AfterSettling(store, order[..|order| - 1], run), order[|order| - 1], run(order[|order| - 1]))
  }

  function At(store: Store, index: nat): Option<ChunkState> { if index in store then Some(store[index]) else None }

  predicate DistinctIndices(order: seq<Window>) {
    forall i, j :: 0 <= i < j < |order| ==> order[i].index != order[j].index
  }

  lemma {:induction false} StoredElsewhere(store: Store, order: seq<Window>, run: Window -> ChunkRun, index: nat)
    requires forall w :: w in order ==> w.index != index
    ensures At(AfterSettling(store, order, run), index) == At(store, index)
  {
    if order != [] {
      assert order[|order| - 1] in order;
      StoredElsewhere(store, order[..|order| - 1], run, index);
    }
  }

  lemma {:induction false} StoredHere(store: Store, order: seq<Window>, run: Window -> ChunkRun, w: Window)
    requires DistinctIndices(order) && w in order
    ensures At(AfterSettling(store, order, run), w.index) == At(Saved(store, w, run(w)), w.index)
  {
    var n := |order| - 1;
    if order[n] == w {
      forall x | x in order[..n] ensures x.index != w.index {
        var i :| 0 <= i < n && order[i] == x;
      }
      StoredElsewhere(store, order[..n], run, w.index);
    } else {
      var i :| 0 <= i < n && order[i] == w;
      assert w in order[..n];
      StoredHere(store, order[..n], run, w);
    }
  }

  lemma DistinctUnderReorder(a: seq<Window>, b: seq<Window>)
    requires DistinctIndices(a) && multiset(a) == multiset(b)
    ensures forall w :: w in a <==> w in b
  {
    SameElements(a, b);
    SameElements(b, a);
  }

  /** Whichever window settles first, the store ends up the same. */
  lemma {:induction false} SettlingOrderIsIrrelevant(
    store: Store, a: seq<Window>, b: seq<Window>, run: Window -> ChunkRun)
    requires DistinctIndices(a) && DistinctIndices(b) && multiset(a) == multiset(b)
    ensures AfterSettling(store, a, run) == AfterSettling(store, b, run)
  {
    DistinctUnderReorder(a, b);
    var left, right := AfterSettling(store, a, run), AfterSettling(store, b, run);
    hide AfterSettling, Saved, DistinctIndices;
    forall index: nat ensures At(left, index) == At(right, index) {
      if w :| w in a && w.index == index {
        StoredHere(store, a, run, w);
        StoredHere(store, b, run, w);
      } else {
        StoredElsewhere(store, a, run, index);
        StoredElsewhere(store, b, run, index);
      }
    }
    SameStore(left, right);
  }

  lemma SameStore(a: Store, b: Store)
    requires forall index: nat :: At(a, index) == At(b, index)
    ensures a == b
  {
    forall k | k in a ensures k in b && a[k] == b[k] { assert At(a, k) == At(b, k); }
    forall k | k in b ensures k in a { assert At(a, k) == At(b, k); }
  }

  /** One run of a durable job: what the model answered, and which pending windows settled, in which order,
      before the run ended or the process died. */
  datatype Round = Round(answers: Window -> Answer, order: seq<Window>)

  function AfterRound(store: Store, round: Round, chunkCount: nat): Store {
    AfterSettling(store, round.order, RunFor(store, round.answers, chunkCount))
  }

  function AfterRounds(store: Store, rounds: seq<Round>, chunkCount: nat): Store
    decreases |rounds|
  {
    if rounds == [] then store else AfterRounds(AfterRound(store, rounds[0], chunkCount), rounds[1..], chunkCount)
  }

  predicate ValidRounds(store: Store, rounds: seq<Round>, chunkCount: nat)
    decreases |rounds|
  {
    if rounds == [] then true
    else
      DistinctIndices(rounds[0].order) && (forall w :: w in rounds[0].order ==> Unsettled(store)(w)) &&
      ValidRounds(AfterRound(store, rounds[0], chunkCount), rounds[1..], chunkCount)
  }

  predicate Settles(run: ChunkRun) { run.Extracted? || run.GivenUp? }

  /** How a window ends over several runs: as stored, or by its first settling attempt, or by the last one. */
  function FirstSettled(
    state: Option<ChunkState>, rounds: seq<Round>, last: Window -> Answer, chunkCount: nat, w: Window): ChunkRun
  {
    if state.Some? && state.value.extraction.Some? then Extracted(state.value.extraction.value)
    else if state.Some? && state.value.permanentlyFailed then GivenUp
    else if rounds == [] then RunOf(last(w), w, chunkCount)
    else
      var run := RunOf(rounds[0].answers(w), w, chunkCount);
      if w in rounds[0].order && Settles(run) then run else FirstSettled(state, rounds[1..], last, chunkCount, w)
  }

  lemma StateAfterRound(store: Store, round: Round, chunkCount: nat, w: Window)
    requires DistinctIndices(round.order) && forall x :: x in round.order ==> Unsettled(store)(x)
    requires forall x :: x in round.order && x.index == w.index ==> x == w
    ensures var run, after := RunOf(round.answers(w), w, chunkCount), At(AfterRound(store, round, chunkCount), w.index);
      if w in round.order && Settles(run)
      then after == Some(ChunkState(w.index, w.start, w.end, if run.Extracted? then Some(run.batch)
        else None, run.GivenUp?))
      else after == At(store, w.index)
  {
    var runs := RunFor(store, round.answers, chunkCount);
    if w in round.order {
      StoredHere(store, round.order, runs, w);
      RunCases(store, round.answers, chunkCount, w);
    } else {
      StoredElsewhere(store, round.order, runs, w.index);
    }
    hide RunOf, AfterSettling, DistinctIndices, Unsettled, RunFor;
  }

  lemma UnsettledState(store: Store, w: Window)
    requires Unsettled(store)(w)
    ensures var state := At(store, w.index);
      state.None? || (state.value.extraction.None? && !state.value.permanentlyFailed)
  {
    Classified(store, w);
  }

  lemma {:induction false} EndsAsFirstSettled(
    store: Store, rounds: seq<Round>, last: Window -> Answer, chunkCount: nat, w: Window)
    requires ValidRounds(store, rounds, chunkCount) && SameLayout(rounds, w)
    ensures RunFor(AfterRounds(store, rounds, chunkCount), last, chunkCount)(w) ==
      FirstSettled(At(store, w.index), rounds, last, chunkCount, w)
    decreases |rounds|
  {
    if rounds != [] {
      var next := AfterRound(store, rounds[0], chunkCount);
      EndsAsFirstSettled(next, rounds[1..], last, chunkCount, w);
      StateAfterRound(store, rounds[0], chunkCount, w);
      if w in rounds[0].order { UnsettledState(store, w); }
      assert AfterRounds(store, rounds, chunkCount) == AfterRounds(next, rounds[1..], chunkCount);
      hide RunOf, AfterRound, AfterRounds, DistinctIndices, RunFor, ValidRounds, SameLayout;
      assert FirstSettled(At(next, w.index), rounds[1..], last, chunkCount, w) ==
        FirstSettled(At(store, w.index), rounds, last, chunkCount, w);
    }
  }

  /** All runs work on the layout `w` belongs to: its index stands for the same window in each. */
  predicate SameLayout(rounds: seq<Round>, w: Window) {
    forall i, x :: 0 <= i < |rounds| && x in rounds[i].order && x.index == w.index ==> x == w
  }

  function EndOf(store: Store, rounds: seq<Round>, last: Window -> Answer, chunkCount: nat): Window -> ChunkRun {
    (w: Window) => FirstSettled(At(store, w.index), rounds, last, chunkCount, w)
  }

  /** Retries, restarts and lost runs leave no trace: a resumed job gives what one run would have given in
      which every window answered with its first settling attempt. */
  lemma {:induction false} ResumeIsTransparent(
    windows: seq<Window>, store: Store, rounds: seq<Round>, last: Window -> Answer)
    requires ValidRounds(store, rounds, |windows|) && forall w :: w in windows ==> SameLayout(rounds, w)
    ensures Outcome(windows, RunFor(AfterRounds(store, rounds, |windows|), last, |windows|)) ==
      Outcome(windows, EndOf(store, rounds, last, |windows|))
  {
    var n := |windows|;
    var f, g := RunFor(AfterRounds(store, rounds, n), last, n), EndOf(store, rounds, last, n);
    forall w | w in windows ensures f(w) == g(w) { EndsAsFirstSettled(store, rounds, last, n, w); }
    hide *;
    SameRunsMeans(windows, f, g);
    OutcomeAgrees(windows, f, g);
  }

  lemma SameRunsMeans(windows: seq<Window>, f: Window -> ChunkRun, g: Window -> ChunkRun)
    requires forall w :: w in windows ==> f(w) == g(w)
    ensures SameRuns(windows, f, g)
  {
  }

  // ---- what a finished import looks like ----------------------------------------------------------------

  lemma AttemptOwnsItsRows(answer: Answer, w: Window, chunkCount: nat)
    requires chunkCount > 1 && RunOf(answer, w, chunkCount).Extracted?
    ensures OwnedBatch(RunOf(answer, w, chunkCount).batch, w)
  {
    ParseMeans(answer.rows.value, w.end - w.start);
    RebaseOwned(Parse(answer.rows.value, w.end - w.start).rows, w, chunkCount);
    hide Parse, RebaseChunkBatch, OwnedBatch;
  }

  lemma {:induction false} EndsOwnTheirRows(rounds: seq<Round>, last: Window -> Answer, chunkCount: nat, w: Window)
    requires chunkCount > 1 && FirstSettled(None, rounds, last, chunkCount, w).Extracted?
    ensures OwnedBatch(FirstSettled(None, rounds, last, chunkCount, w).batch, w)
  {
    hide RunOf, OwnedBatch;
    if rounds == [] {
      AttemptOwnsItsRows(last(w), w, chunkCount);
    } else {
      var run := RunOf(rounds[0].answers(w), w, chunkCount);
      if w in rounds[0].order && Settles(run) {
        AttemptOwnsItsRows(rounds[0].answers(w), w, chunkCount);
      } else {
        EndsOwnTheirRows(rounds[1..], last, chunkCount, w);
      }
    }
  }

  /** An import of several windows never fails on colliding ids, and what it reads is well merged, however
      many runs it took and in whatever order its windows settled. */
  lemma {:induction false} ResumedImportIsWellMerged(
    windows: seq<Window>, imageCount: nat, rounds: seq<Round>, last: Window -> Answer)
    requires |windows| > 1 && Tiles(windows, 0, imageCount, 0)
    requires ValidRounds(map[], rounds, |windows|) && forall w :: w in windows ==> SameLayout(rounds, w)
    ensures var n := |windows|;
      var outcome := Outcome(windows, RunFor(AfterRounds(map[], rounds, n), last, n));
      && !outcome.ChunkIdsCollide?
      && (outcome.Read? ==> WellMerged(outcome.rows, windows, imageCount, EndOf(map[], rounds, last, n)))
  {
    var n := |windows|;
    var ends := EndOf(map[], rounds, last, n);
    ResumeIsTransparent(windows, map[], rounds, last);
    forall w | w in windows && ends(w).Extracted? ensures OwnedBatch(ends(w).batch, w) {
      EndsOwnTheirRows(rounds, last, n, w);
    }
    OwnBatchesMeans(windows, ends);
    MergeIsSafe(windows, imageCount, ends);
    hide EndOf, RunFor, AfterRounds, Tiles, OwnBatches, Filter, Sort, Collected, StrictlyOrdered;
  }

  lemma OwnBatchesMeans(windows: seq<Window>, run: Window -> ChunkRun)
    requires forall w :: w in windows && run(w).Extracted? ==> OwnedBatch(run(w).batch, w)
    ensures OwnBatches(windows, run)
  {
  }
}
