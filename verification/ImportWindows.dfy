/** Overlapping windows over the screenshots of an import: every screenshot is owned by exactly one. */
module ImportWindows {
  import opened Sequences
  import opened Sorting

  const CHUNK_SIZE := 6
  const CHUNK_OVERLAP := 1

  datatype Window = Window(index: nat, start: nat, end: nat, leadOverlap: nat)

  datatype Windows = InvalidCount | InvalidSize | InvalidOverlap | Layout(windows: seq<Window>)

  /** The first screenshot a window owns: those before it belong to the window before. */
  function OwnedStart(w: Window): nat { w.start + w.leadOverlap }

  predicate Owns(w: Window, image: nat) { OwnedStart(w) <= image < w.end }

  /** The owned ranges follow each other from `lo` to `hi`, none empty, numbered in order. */
  predicate Tiles(windows: seq<Window>, lo: nat, hi: nat, firstIndex: nat)
    decreases |windows|
  {
    if windows == [] then lo == hi
    else
      OwnedStart(windows[0]) == lo < windows[0].end && windows[0].index == firstIndex &&
      Tiles(windows[1..], windows[0].end, hi, firstIndex + 1)
  }

  lemma {:induction false} TilesAppend(windows: seq<Window>, lo: nat, hi: nat, firstIndex: nat, w: Window)
    requires Tiles(windows, lo, hi, firstIndex)
    requires OwnedStart(w) == hi < w.end && w.index == firstIndex + |windows|
    ensures Tiles(windows + [w], lo, w.end, firstIndex)
    decreases |windows|
  {
    if windows == [] {
      assert (windows + [w])[1..] == [];
    } else {
      assert (windows + [w])[1..] == windows[1..] + [w];
      TilesAppend(windows[1..], windows[0].end, hi, firstIndex + 1, w);
    }
  }

  /** Windows of the given size at the given stride, each repeating `overlap` screenshots of the one before. */
  ghost predicate Spaced(windows: seq<Window>, imageCount: int, chunkSize: int, overlap: nat) {
    && (forall w :: w in windows ==>
      w.start <= w.end <= imageCount && w.end - w.start <= chunkSize && w.leadOverlap == if w.start == 0 then 0
        else overlap)
    && (forall k :: 0 <= k < |windows| - 1 ==>
      windows[k].end - windows[k].start == chunkSize &&
        windows[k + 1].start == windows[k].start + (chunkSize - overlap))
  }

  /** What the loop keeps: the windows made so far own exactly the screenshots before the next window's own. */
  ghost predicate Filling(windows: seq<Window>, start: int, imageCount: nat, chunkSize: int, overlap: nat) {
    && 0 <= start && (start == 0 <==> windows == [])
    && (start == 0 || start - (chunkSize - overlap) + overlap < imageCount)
    && Tiles(windows, 0, if start == 0 then 0 else Min(imageCount, start + overlap), 0)
    && (windows != [] ==> LastIsFull(windows[|windows| - 1], start, imageCount, chunkSize, overlap))
  }

  predicate LastIsFull(last: Window, start: int, imageCount: nat, chunkSize: int, overlap: nat) {
    last.start == start - (chunkSize - overlap) && (start + overlap < imageCount ==> last.end - last.start == chunkSize)
  }

  lemma FillingStep(windows: seq<Window>, start: nat, imageCount: nat, chunkSize: int, overlap: nat, w: Window)
    requires overlap < chunkSize < imageCount && (start == 0 || start + overlap < imageCount)
    requires Filling(windows, start, imageCount, chunkSize, overlap)
    requires w == Window(|windows|, start, Min(imageCount, start + chunkSize), if start == 0 then 0 else overlap)
    ensures Filling(windows + [w], start + (chunkSize - overlap), imageCount, chunkSize, overlap)
  {
    TilesAppend(windows, 0, OwnedStart(w), 0, w);
    hide Tiles;
  }

  lemma SpacedStep(windows: seq<Window>, start: nat, imageCount: nat, chunkSize: int, overlap: nat, w: Window)
    requires overlap < chunkSize < imageCount && (start == 0 || start + overlap < imageCount)
    requires Filling(windows, start, imageCount, chunkSize, overlap) && Spaced(windows, imageCount, chunkSize, overlap)
    requires w == Window(|windows|, start, Min(imageCount, start + chunkSize), if start == 0 then 0 else overlap)
    ensures Spaced(windows + [w], imageCount, chunkSize, overlap)
  {
    hide Tiles;
  }

  method ImportImageChunks(imageCount: int, chunkSize: int := CHUNK_SIZE, overlap: int := CHUNK_OVERLAP)
    returns (r: Windows)
    ensures r.InvalidCount? <==> imageCount < 0
    ensures r.InvalidSize? <==> imageCount >= 0 && chunkSize < 1
    ensures r.InvalidOverlap? <==> imageCount >= 0 && chunkSize >= 1 && !(0 <= overlap < chunkSize)
    ensures r.Layout? ==> Tiles(r.windows, 0, imageCount, 0)
    ensures r.Layout? ==> Spaced(r.windows, imageCount, chunkSize, overlap)
  {
    if imageCount < 0 { return InvalidCount; }
    if chunkSize < 1 { return InvalidSize; }
    if overlap < 0 || overlap >= chunkSize { return InvalidOverlap; }
    if imageCount <= chunkSize {
      return Layout(if imageCount == 0 then [] else [Window(0, 0, imageCount, 0)]);
    }
    var stride := chunkSize - overlap;
    var windows: seq<Window> := [];
    var start := 0;
    while start == 0 || start + overlap < imageCount
      invariant Filling(windows, start, imageCount, chunkSize, overlap)
      invariant Spaced(windows, imageCount, chunkSize, overlap)
      decreases imageCount - start
    {
      hide Filling, Spaced, Tiles;
      StartIsNatural(windows, start, imageCount, chunkSize, overlap);
      var w := Window(|windows|, start, Min(imageCount, start + chunkSize), if start == 0 then 0 else overlap);
      SpacedStep(windows, start, imageCount, chunkSize, overlap, w);
      FillingStep(windows, start, imageCount, chunkSize, overlap, w);
      windows := windows + [w];
      start := start + stride;
    }
    FillingDone(windows, start, imageCount, chunkSize, overlap);
    hide Spaced, Tiles;
    return Layout(windows);
  }

  lemma StartIsNatural(windows: seq<Window>, start: int, imageCount: nat, chunkSize: int, overlap: nat)
    requires Filling(windows, start, imageCount, chunkSize, overlap)
    ensures start >= 0
  {
  }

  lemma FillingDone(windows: seq<Window>, start: int, imageCount: nat, chunkSize: int, overlap: nat)
    requires Filling(windows, start, imageCount, chunkSize, overlap) && !(start == 0 || start + overlap < imageCount)
    ensures Tiles(windows, 0, imageCount, 0)
  {
    hide Tiles;
  }

  // ---- the owner of a screenshot ------------------------------------------------------------------------

  function FirstOwning(windows: seq<Window>, image: nat): Option<nat> {
    if windows == [] then None
    else if Owns(windows[0], image) then Some(windows[0].index)
    else FirstOwning(windows[1..], image)
  }

  function FirstCovering(windows: seq<Window>, image: nat): Option<nat> {
    if windows == [] then None
    else if windows[0].start <= image < windows[0].end then Some(windows[0].index)
    else FirstCovering(windows[1..], image)
  }

  function ImportChunkIndexOf(image: nat, windows: seq<Window>): nat {
    var owner := FirstOwning(windows, image);
    if owner.Some? then owner.value
    else
      var covering := FirstCovering(windows, image);
      if covering.Some? then covering.value else 0
  }

  lemma {:induction false} OneOwner(windows: seq<Window>, lo: nat, hi: nat, firstIndex: nat, image: nat)
    requires Tiles(windows, lo, hi, firstIndex) && lo <= image < hi
    ensures FirstOwning(windows, image).Some? && firstIndex <= FirstOwning(windows, image).value < firstIndex +
      |windows|
    ensures forall k :: 0 <= k < |windows| ==> (Owns(windows[k], image) <==>
      firstIndex + k == FirstOwning(windows, image).value)
    decreases |windows|
  {
    var rest := windows[1..];
    if Owns(windows[0], image) {
      OwnedAfter(rest, windows[0].end, hi, firstIndex + 1);
      forall k | 0 < k < |windows| ensures !Owns(windows[k], image) { assert windows[k] == rest[k - 1]; }
    } else {
      OneOwner(rest, windows[0].end, hi, firstIndex + 1, image);
      forall k | 0 < k < |windows|
        ensures Owns(windows[k], image) <==> firstIndex + k == FirstOwning(windows, image).value
      {
        assert windows[k] == rest[k - 1];
      }
    }
  }

  lemma {:induction false} OwnedAfter(windows: seq<Window>, lo: nat, hi: nat, firstIndex: nat)
    requires Tiles(windows, lo, hi, firstIndex)
    ensures lo <= hi
    ensures forall k :: 0 <= k < |windows| ==>
      lo <= OwnedStart(windows[k]) && windows[k].end <= hi && windows[k].index == firstIndex + k
    decreases |windows|
  {
    if windows != [] {
      var rest := windows[1..];
      OwnedAfter(rest, windows[0].end, hi, firstIndex + 1);
      forall k | 0 < k < |windows|
        ensures lo <= OwnedStart(windows[k]) && windows[k].end <= hi && windows[k].index == firstIndex + k
      {
        assert windows[k] == rest[k - 1];
      }
    }
  }

  /** The index the lookup returns is that of the one window owning the screenshot. */
  lemma OwnerIsUnique(windows: seq<Window>, imageCount: nat, image: nat)
    requires Tiles(windows, 0, imageCount, 0) && image < imageCount
    ensures ImportChunkIndexOf(image, windows) < |windows|
    ensures forall k :: 0 <= k < |windows| ==> (Owns(windows[k], image) <==> k == ImportChunkIndexOf(image, windows))
  {
    OneOwner(windows, 0, imageCount, 0, image);
  }

  // ---- rebuilding the layout from recorded ranges -------------------------------------------------------

  datatype Range = Range(index: nat, start: nat, end: nat)

  function RangeOf(): Window -> Range { (w: Window) => Range(w.index, w.start, w.end) }

  function ByIndex(): (Range, Range) -> bool { (a: Range, b: Range) => a.index <= b.index }

  function LeadOverlap(previous: Option<Range>, range: Range): nat {
    if previous.None? then 0 else Max(0, Min(previous.value.end - range.start, range.end - range.start - 1))
  }

  function RebuildAt(ordered: seq<Range>, i: nat): Window
    requires i < |ordered|
  {
    Window(ordered[i].index, ordered[i].start, ordered[i].end,
      LeadOverlap(if i == 0 then None else Some(ordered[i - 1]), ordered[i]))
  }

  function Rebuild(ordered: seq<Range>): (r: seq<Window>)
    ensures |r| == |ordered|
  {
    seq(|ordered|, i requires 0 <= i < |ordered| => RebuildAt(ordered, i))
  }

  function ImportChunkLayout(ranges: seq<Range>): seq<Window> { Rebuild(Sort(ranges, ByIndex())) }

  lemma {:induction false} Neighbours(windows: seq<Window>, lo: nat, hi: nat, firstIndex: nat, k: nat)
    requires Tiles(windows, lo, hi, firstIndex) && k < |windows|
    ensures OwnedStart(windows[k]) == if k == 0 then lo else windows[k - 1].end
    ensures OwnedStart(windows[k]) < windows[k].end
    decreases |windows|
  {
    if k > 0 {
      var rest := windows[1..];
      Neighbours(rest, windows[0].end, hi, firstIndex + 1, k - 1);
      assert rest[k - 1] == windows[k];
      if k > 1 { assert rest[k - 2] == windows[k - 1]; }
    }
  }

  lemma ByIndexOrders()
    ensures TotalOrder(ByIndex())
  {
  }

  lemma RecordedInOrder(windows: seq<Window>, imageCount: nat)
    requires Tiles(windows, 0, imageCount, 0)
    ensures Ordered(Map(windows, RangeOf()), ByIndex()) && Antisymmetric(Map(windows, RangeOf()), ByIndex())
  {
    OwnedAfter(windows, 0, imageCount, 0);
    hide Tiles;
    var recorded := Map(windows, RangeOf());
    assert forall k :: 0 <= k < |recorded| ==> recorded[k].index == k;
    forall x, y | x in recorded && y in recorded && ByIndex()(x, y) && ByIndex()(y, x) ensures x == y {
      assert x == recorded[x.index] && y == recorded[y.index];
    }
  }

  lemma RebuildsOne(windows: seq<Window>, imageCount: nat, k: nat)
    requires Tiles(windows, 0, imageCount, 0) && k < |windows|
    ensures RebuildAt(Map(windows, RangeOf()), k) == windows[k]
  {
    OwnedAfter(windows, 0, imageCount, 0);
    Neighbours(windows, 0, imageCount, 0, k);
    hide Tiles;
  }

  lemma RebuildsRecorded(windows: seq<Window>, imageCount: nat)
    requires Tiles(windows, 0, imageCount, 0)
    ensures Rebuild(Map(windows, RangeOf())) == windows
  {
    var recorded := Map(windows, RangeOf());
    forall k | 0 <= k < |windows| ensures RebuildAt(recorded, k) == windows[k] {
      RebuildsOne(windows, imageCount, k);
    }
    hide Tiles, RebuildAt;
    assert |Rebuild(recorded)| == |windows|;
    forall k | 0 <= k < |windows| ensures Rebuild(recorded)[k] == windows[k] {}
  }

  /** Ranges recorded in any order give back the layout they were recorded from. */
  lemma {:induction false} RecordedRangesRebuild(windows: seq<Window>, imageCount: nat, ranges: seq<Range>)
    requires Tiles(windows, 0, imageCount, 0)
    requires multiset(ranges) == multiset(Map(windows, RangeOf()))
    ensures ImportChunkLayout(ranges) == windows
  {
    var recorded := Map(windows, RangeOf());
    RecordedInOrder(windows, imageCount);
    RebuildsRecorded(windows, imageCount);
    ByIndexOrders();
    hide Tiles, Antisymmetric, Ordered, TotalOrder, Rebuild, Map, ByIndex, RangeOf;
    SortOfOrdered(recorded, ByIndex());
    SortUnique(recorded, ranges, ByIndex());
  }
}
