/** The JavaScript a browser loads before anything else: the chunks entry chunks import statically. */
module WebBundle {
  import opened Sequences
  import opened Sorting
  import opened Reachability

  datatype Chunk = Chunk(file: string, isEntry: bool, imports: seq<string>)

  type Manifest = map<string, Chunk>

  datatype Closure = NoEntry | UnknownImport(importer: string, imported: string) | Initial(keys: seq<string>)

  predicate EndsWith(s: string, suffix: string) { |s| >= |suffix| && s[|s| - |suffix|..] == suffix }

  predicate IsJs(file: string) { EndsWith(file, ".js") || EndsWith(file, ".mjs") || EndsWith(file, ".cjs") }

  function Imports(m: Manifest): string -> seq<string> { (key: string) => if key in m then m[key].imports else [] }

  predicate IsRoot(m: Manifest, key: string) { key in m && m[key].isEntry && IsJs(m[key].file) }

  ghost predicate RootsOf(m: Manifest, roots: seq<string>) { forall key :: key in roots <==> IsRoot(m, key) }

  /** Loaded before anything else: reached from an entry chunk over static imports. */
  ghost predicate Loaded(m: Manifest, roots: seq<string>, key: string) { Reachable(Imports(m), roots, key) }

  predicate Dangling(m: Manifest, importer: string, imported: string) {
    importer in m && imported in m[importer].imports && imported !in m
  }

  ghost predicate Scanning(m: Manifest, roots: seq<string>, visited: set<string>, stack: seq<string>) {
    && (forall key :: key in visited ==> key in m && Loaded(m, roots, key))
    && (forall key :: key in stack ==> key in m && Loaded(m, roots, key))
    && (forall key :: key in roots ==> key in visited || key in stack)
    && (forall key, next :: key in visited && next in Imports(m)(key) ==> next in visited || next in stack)
  }

  /** While the imports of one chunk are pushed. */
  ghost predicate Pushing(
    m: Manifest, roots: seq<string>, visited: set<string>, stack: seq<string>, key: string, n: nat)
  {
    key in m && Loaded(m, roots, key) && n <= |m[key].imports| && key in visited
    && (forall k :: k in visited ==> k in m && Loaded(m, roots, k))
    && (forall k :: k in stack ==> k in m && Loaded(m, roots, k))
    && (forall k :: k in roots ==> k in visited || k in stack)
    && (forall k, next :: k in visited && k != key && next in Imports(m)(k) ==> next in visited || next in stack)
    && (forall i :: 0 <= i < n ==> m[key].imports[i] in visited || m[key].imports[i] in stack)
  }

  lemma ScanStarts(m: Manifest, roots: seq<string>)
    requires forall key :: key in roots ==> key in m
    ensures Scanning(m, roots, {}, roots)
  {
    hide Reachable;
    forall key | key in roots ensures Loaded(m, roots, key) { RootReachable(Imports(m), roots, key); }
    hide Loaded;
  }

  lemma LastOf(stack: seq<string>)
    requires stack != []
    ensures forall k :: k in stack <==> k in stack[..|stack| - 1] || k == stack[|stack| - 1]
  {
    assert stack == stack[..|stack| - 1] + [stack[|stack| - 1]];
  }

  lemma Drop(m: Manifest, roots: seq<string>, visited: set<string>, stack: seq<string>)
    requires Scanning(m, roots, visited, stack) && stack != [] && stack[|stack| - 1] in visited
    ensures Scanning(m, roots, visited, stack[..|stack| - 1])
  {
    LastOf(stack);
    hide Loaded;
  }

  lemma Open(m: Manifest, roots: seq<string>, visited: set<string>, stack: seq<string>)
    requires Scanning(m, roots, visited, stack) && stack != []
    ensures var key := stack[|stack| - 1]; Pushing(m, roots, visited + {key}, stack[..|stack| - 1], key, 0)
  {
    LastOf(stack);
    assert stack[|stack| - 1] in stack;
    hide Loaded;
  }

  lemma Push(m: Manifest, roots: seq<string>, visited: set<string>, stack: seq<string>, key: string, n: nat)
    requires Pushing(m, roots, visited, stack, key, n) && n < |m[key].imports| && m[key].imports[n] in m
    ensures var next := m[key].imports[n];
      Pushing(m, roots, visited, if next in visited then stack else stack + [next], key, n + 1)
  {
    var next := m[key].imports[n];
    hide Reachable;
    assert next in Imports(m)(key);
    StepReachable(Imports(m), roots, key, next);
    assert Loaded(m, roots, next);
    hide Loaded;
  }

  lemma Close(m: Manifest, roots: seq<string>, visited: set<string>, stack: seq<string>, key: string)
    requires key in m && Pushing(m, roots, visited, stack, key, |m[key].imports|)
    ensures Scanning(m, roots, visited, stack)
  {
    hide Loaded;
  }

  /** What has been scanned at the end is exactly what is loaded, and nothing loaded imports an unknown chunk. */
  lemma ScanEnds(m: Manifest, roots: seq<string>, visited: set<string>)
    requires Scanning(m, roots, visited, [])
    ensures forall key :: key in visited <==> Loaded(m, roots, key)
    ensures forall key, next :: Loaded(m, roots, key) ==> key in m && !Dangling(m, key, next)
  {
    forall key | Loaded(m, roots, key) ensures key in visited { ReachableIn(Imports(m), roots, visited, key); }
    hide Loaded;
    forall key, next | key in visited ensures !Dangling(m, key, next) {
      if key in m && next in m[key].imports { assert next in Imports(m)(key); }
    }
  }

  function IsJsKey(m: Manifest): string -> bool { (key: string) => key in m && IsJs(m[key].file) }

  function IsRootKey(m: Manifest): string -> bool { (key: string) => IsRoot(m, key) }

  /** `order` lists the keys of the manifest. */
  function RootKeys(m: Manifest, order: seq<string>, textAtMost: (string, string) -> bool): seq<string> {
    Sort(Filter(order, IsRootKey(m)), textAtMost)
  }

  lemma RootKeysMean(m: Manifest, order: seq<string>, textAtMost: (string, string) -> bool)
    requires forall key :: key in order <==> key in m
    ensures RootsOf(m, RootKeys(m, order, textAtMost))
    ensures forall key :: key in RootKeys(m, order, textAtMost) ==> key in m
  {
    var roots := Filter(order, IsRootKey(m));
    SortKeeps(roots, textAtMost);
    SameElements(Sort(roots, textAtMost), roots);
    SameElements(roots, Sort(roots, textAtMost));
    hide Sort, Filter, IsRoot;
    forall key ensures key in roots <==> IsRoot(m, key) {
      FilterMember(order, IsRootKey(m), key);
      assert IsRoot(m, key) ==> key in m by { RootIsKey(m, key); }
    }
  }

  lemma RootIsKey(m: Manifest, key: string)
    ensures IsRoot(m, key) ==> key in m
  {
  }

  lemma KnownKey(m: Manifest, roots: seq<string>, visited: set<string>, stack: seq<string>, key: string, n: nat)
    requires Pushing(m, roots, visited, stack, key, n)
    ensures key in m
  {
  }

  lemma FoundDangling(m: Manifest, roots: seq<string>, visited: set<string>, stack: seq<string>, key: string, n: nat)
    requires Pushing(m, roots, visited, stack, key, n) && n < |m[key].imports| && m[key].imports[n] !in m
    ensures Loaded(m, roots, key) && Dangling(m, key, m[key].imports[n])
  {
  }

  /** Each initially loaded JavaScript chunk once, and nothing else. */
  ghost predicate IsInitial(m: Manifest, roots: seq<string>, keys: seq<string>) {
    forall key :: multiset(keys)[key] == if Loaded(m, roots, key) && IsJsKey(m)(key) then 1 else 0
  }

  lemma InitialKeys(m: Manifest, roots: seq<string>, scanned: seq<string>, textAtMost: (string, string) -> bool)
    requires EachOnce(scanned) && forall key :: key in scanned <==> Loaded(m, roots, key)
    ensures IsInitial(m, roots, Sort(Filter(scanned, IsJsKey(m)), textAtMost))
  {
    var js := Filter(scanned, IsJsKey(m));
    SortKeeps(js, textAtMost);
    FilterEachOnce(scanned, IsJsKey(m));
    hide Sort, Filter, EachOnce, Loaded, IsJsKey;
    forall key ensures multiset(js)[key] == if Loaded(m, roots, key) && IsJsKey(m)(key) then 1 else 0 {
      EachOnceCounts(js, key);
      FilterMember(scanned, IsJsKey(m), key);
    }
  }

  /** Depth first over static imports; the keys come in text order. */
  method InitialJsClosure(m: Manifest, order: seq<string>, textAtMost: (string, string) -> bool) returns (r: Closure)
    requires EachOnce(order) && forall key :: key in order <==> key in m
    ensures r.NoEntry? <==> forall key :: !IsRoot(m, key)
    ensures r.UnknownImport? ==>
      Loaded(m, RootKeys(m, order, textAtMost), r.importer) && Dangling(m, r.importer, r.imported)
    ensures r.Initial? ==> forall key, next :: Loaded(m, RootKeys(m, order, textAtMost), key) ==>
      !Dangling(m, key, next)
    ensures r.Initial? ==> IsInitial(m, RootKeys(m, order, textAtMost), r.keys)
    ensures r.Initial? && TotalOrder(textAtMost) ==> Ordered(r.keys, textAtMost)
  {
    var roots := RootKeys(m, order, textAtMost);
    RootKeysMean(m, order, textAtMost);
    hide RootKeys, IsRoot, Loaded, Dangling, IsInitial, IsJsKey, Sort, TotalOrder, Ordered, Scanning, Pushing, Imports,
      EachOnce;
    if roots == [] { return NoEntry; }
    assert IsRoot(m, roots[0]);
    hide RootsOf;
    OnceNone();
    var visited: set<string>, scanned: seq<string> := {}, [];
    var stack := roots;
    ScanStarts(m, roots);
    while stack != []
      invariant Scanning(m, roots, visited, stack)
      invariant EachOnce(scanned) && forall key :: key in visited <==> key in scanned
      decreases m.Keys - visited, |stack|
    {
      var key := stack[|stack| - 1];
      if key in visited {
        Drop(m, roots, visited, stack);
        stack := stack[..|stack| - 1];
      } else {
        Open(m, roots, visited, stack);
        KnownKey(m, roots, visited + {key}, stack[..|stack| - 1], key, 0);
        OnceMore(scanned, key);
        stack := stack[..|stack| - 1];
        visited := visited + {key};
        scanned := scanned + [key];
        var imports := m[key].imports;
        for i := 0 to |imports|
          invariant Pushing(m, roots, visited, stack, key, i)
        {
          var next := imports[i];
          if next !in m {
            FoundDangling(m, roots, visited, stack, key, i);
            return UnknownImport(key, next);
          }
          Push(m, roots, visited, stack, key, i);
          if next !in visited { stack := stack + [next]; }
        }
        Close(m, roots, visited, stack, key);
      }
    }
    ScanEnds(m, roots, visited);
    InitialKeys(m, roots, scanned, textAtMost);
    if TotalOrder(textAtMost) { SortOrdered(Filter(scanned, IsJsKey(m)), textAtMost); }
    return Initial(Sort(Filter(scanned, IsJsKey(m)), textAtMost));
  }

  lemma OnceNone()
    ensures EachOnce<string>([])
  {
  }

  lemma OnceMore(s: seq<string>, x: string)
    requires EachOnce(s) && x !in s
    ensures EachOnce(s + [x])
  {
  }
}
