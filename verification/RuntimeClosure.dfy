/** Which packages of the store the runtime image needs: those the workspace roots reach over required links. */
module RuntimeClosure {
  import opened Sequences
  import opened Sorting
  import opened Reachability

  datatype Manifest = Manifest(
    dependencies: set<string>, optionalDependencies: set<string>, peerDependencies: set<string>,
    optionalPeers: set<string>)

  datatype Node = StoreEntry(id: string) | Workspace(dir: string)

  datatype Link = Link(name: string, target: Option<Node>)

  /** The file system as the walk sees it: the links of every node_modules directory there is. */
  datatype StoreReader = StoreReader(
    links: map<string, seq<Link>>, manifestOf: Node -> Manifest, nodeModulesOf: Node -> string)

  /** An optional peer is left out: its dependent promises to do without it. */
  function RequiredSpecifiers(m: Manifest): (required: set<string>)
    ensures forall name :: name in required <==>
      name in m.dependencies || name in m.optionalDependencies ||
        (name in m.peerDependencies && name !in m.optionalPeers)
  {
    m.dependencies + m.optionalDependencies + (m.peerDependencies - m.optionalPeers)
  }

  function LinksIn(reader: StoreReader, dir: string): seq<Link> {
    if dir in reader.links then reader.links[dir] else []
  }

  /** The packages a directory links to under one of these names. */
  function Targets(links: seq<Link>, required: set<string>): seq<Node> {
    if links == [] then [] else
      var l := links[|links| - 1];
      Targets(links[..|links| - 1], required) + if l.name in required && l.target.Some? then [l.target.value] else []
  }

  function RequiredBy(reader: StoreReader, n: Node): set<string> { RequiredSpecifiers(reader.manifestOf(n)) }

  /** What a package must be able to resolve, and does. */
  function Requires(reader: StoreReader): Node -> seq<Node> {
    (n: Node) => Targets(LinksIn(reader, reader.nodeModulesOf(n)), RequiredBy(reader, n))
  }

  function Roots(workspaceRoots: seq<string>): seq<Node> {
    seq(|workspaceRoots|, i requires 0 <= i < |workspaceRoots| => Workspace(workspaceRoots[i]))
  }

  ghost predicate Needed(reader: StoreReader, workspaceRoots: seq<string>, n: Node) {
    Reachable(Requires(reader), Roots(workspaceRoots), n)
  }

  /** Every package has a node_modules directory of its own, as in the isolated store. */
  ghost predicate SeparateDirs(nodeModulesOf: Node -> string) {
    forall a, b :: nodeModulesOf(a) == nodeModulesOf(b) ==> a == b
  }

  /** Packages that share a node_modules directory require the same of it. */
  ghost predicate SharedDirsAgree(reader: StoreReader, workspaceRoots: seq<string>) {
    forall a, b ::
      Needed(reader, workspaceRoots, a) && Needed(reader, workspaceRoots, b) &&
        reader.nodeModulesOf(a) == reader.nodeModulesOf(b) ==>
        Requires(reader)(a) == Requires(reader)(b)
  }

  // ---- the walk -----------------------------------------------------------------------------------------

  datatype Frame = Frame(nodeModules: string, required: set<string>, origin: Node)

  function FrameOf(reader: StoreReader): Node -> Frame {
    (n: Node) => Frame(reader.nodeModulesOf(n), RequiredBy(reader, n), n)
  }

  /** What following the first `n` links of a directory adds to what is kept and to the queue. */
  function Follow(
    reader: StoreReader, frame: Frame, keep: set<string>, queue: seq<Frame>, n: nat): (set<string>, seq<Frame>)
    requires n <= |LinksIn(reader, frame.nodeModules)|
  {
    if n == 0 then (keep, queue) else
      var (k, q) := Follow(reader, frame, keep, queue, n - 1);
      var l := LinksIn(reader, frame.nodeModules)[n - 1];
      if l.name !in frame.required || l.target.None? then (k, q)
      else if l.target.value.StoreEntry? && l.target.value.id in k then (k, q)
      else (if l.target.value.StoreEntry? then k + {l.target.value.id} else k, q + [FrameOf(reader)(l.target.value)])
  }

  /** Breadth first. It ends on any store: a directory is walked once, and one that does not exist has no links. */
  function Walk(reader: StoreReader, keep: set<string>, queue: seq<Frame>, visited: set<string>): set<string>
    decreases reader.links.Keys - visited, |queue|
  {
    if queue == [] then keep
    else if queue[0].nodeModules in visited then Walk(reader, keep, queue[1..], visited)
    else
      var (k, q) := Follow(reader, queue[0], keep, queue[1..], |LinksIn(reader, queue[0].nodeModules)|);
      Walk(reader, k, q, visited + {queue[0].nodeModules})
  }

  function Closure(reader: StoreReader, workspaceRoots: seq<string>): set<string> {
    Walk(reader, {}, Map(Roots(workspaceRoots), FrameOf(reader)), {})
  }

  ghost predicate Queued(reader: StoreReader, queue: seq<Frame>) {
    forall f :: f in queue ==> f == FrameOf(reader)(f.origin)
  }

  ghost function Origins(queue: seq<Frame>): set<Node> { set f | f in queue :: f.origin }

  /** Everything the walk has met is needed, and kept if it is a store entry. */
  ghost predicate Sound(reader: StoreReader, roots: seq<string>, met: set<Node>, keep: set<string>) {
    (forall n :: n in met ==> Needed(reader, roots, n)) && (forall id :: id in keep <==> StoreEntry(id) in met)
  }

  /** Every visited directory was walked for some package, whose requirements have all been met. */
  ghost predicate Walked(reader: StoreReader, met: set<Node>, visited: set<string>) {
    forall d :: d in visited ==> exists v :: v in met && reader.nodeModulesOf(v) == d && forall m ::
      m in Requires(reader)(v) ==> m in met
  }

  /** Of the packages met, those not waiting in the queue have had their directory visited. */
  ghost predicate Handled(reader: StoreReader, met: set<Node>, queue: seq<Frame>, visited: set<string>) {
    forall n :: n in met && n !in Origins(queue) ==> reader.nodeModulesOf(n) in visited
  }

  ghost predicate Walking(
    reader: StoreReader, roots: seq<string>, met: set<Node>, keep: set<string>, queue: seq<Frame>, visited: set<string>)
  {
    && Queued(reader, queue) && Origins(queue) <= met && Sound(reader, roots, met, keep)
    && Walked(reader, met, visited) && Handled(reader, met, queue, visited)
    && (forall n :: n in Roots(roots) ==> n in met)
  }

  /** While the links of one directory are followed. */
  ghost predicate Following(
    reader: StoreReader, roots: seq<string>, met: set<Node>, keep: set<string>, queue: seq<Frame>, visited: set<string>,
    frame: Frame, n: nat)
  {
    var links := LinksIn(reader, frame.nodeModules);
    && n <= |links| && frame == FrameOf(reader)(frame.origin) && frame.origin in met
    && Queued(reader, queue) && Origins(queue) <= met && Sound(reader, roots, met, keep)
    && Walked(reader, met, visited - {frame.nodeModules}) && Handled(reader, met, queue, visited)
    && (forall m :: m in Targets(links[..n], frame.required) ==> m in met)
    && (forall n :: n in Roots(roots) ==> n in met)
  }

  lemma WalkStarts(reader: StoreReader, roots: seq<string>)
    ensures Walking(reader, roots, set n | n in Roots(roots), {}, Map(Roots(roots), FrameOf(reader)), {})
  {
    hide RequiredSpecifiers, Requires;
    var queue := Map(Roots(roots), FrameOf(reader));
    forall n | n in Roots(roots) ensures Needed(reader, roots, n) && n in Origins(queue) {
      RootReachable(Requires(reader), Roots(roots), n);
      var i :| 0 <= i < |Roots(roots)| && Roots(roots)[i] == n;
      assert queue[i] in queue && queue[i].origin == n;
    }
  }

  lemma OriginsShrink(queue: seq<Frame>)
    requires queue != []
    ensures Origins(queue) == {queue[0].origin} + Origins(queue[1..])
  {
    assert queue == [queue[0]] + queue[1..];
  }

  lemma OriginsGrow(queue: seq<Frame>, f: Frame)
    ensures Origins(queue + [f]) == Origins(queue) + {f.origin}
  {
  }

  lemma QueueShrinks(reader: StoreReader, met: set<Node>, queue: seq<Frame>, visited: set<string>, after: set<string>)
    requires Queued(reader, queue) && Origins(queue) <= met && Handled(reader, met, queue, visited)
    requires queue != [] && visited <= after && queue[0].nodeModules in after
    ensures Queued(reader, queue[1..]) && Origins(queue[1..]) <= met && Handled(reader, met, queue[1..], after)
    ensures queue[0] == FrameOf(reader)(queue[0].origin) && queue[0].origin in met
  {
    OriginsShrink(queue);
    assert queue[0] in queue;
    assert queue[0].nodeModules == reader.nodeModulesOf(queue[0].origin);
    hide Origins, FrameOf;
  }

  lemma SkipVisited(
    reader: StoreReader, roots: seq<string>, met: set<Node>, keep: set<string>, queue: seq<Frame>, visited: set<string>)
    requires Walking(reader, roots, met, keep, queue, visited) && queue != [] && queue[0].nodeModules in visited
    ensures Walking(reader, roots, met, keep, queue[1..], visited)
  {
    QueueShrinks(reader, met, queue, visited, visited);
    hide Sound, Walked, Origins, RequiredBy, Requires, FrameOf, Queued, Handled;
  }

  lemma Enter(
    reader: StoreReader, roots: seq<string>, met: set<Node>, keep: set<string>, queue: seq<Frame>, visited: set<string>)
    requires Walking(reader, roots, met, keep, queue, visited) && queue != [] && queue[0].nodeModules !in visited
    ensures Following(reader, roots, met, keep, queue[1..], visited + {queue[0].nodeModules}, queue[0], 0)
  {
    QueueShrinks(reader, met, queue, visited, visited + {queue[0].nodeModules});
    assert (visited + {queue[0].nodeModules}) - {queue[0].nodeModules} == visited;
    assert Targets(LinksIn(reader, queue[0].nodeModules)[..0], queue[0].required) == [];
    hide Sound, Walked, Origins, RequiredBy, Requires, FrameOf, Queued, Handled, Targets, LinksIn;
  }

  lemma TargetsStep(links: seq<Link>, i: nat, required: set<string>)
    requires i < |links|
    ensures Targets(links[..i + 1], required) ==
      if links[i].name in required && links[i].target.Some?
      then Targets(links[..i], required) + [links[i].target.value] else Targets(links[..i], required)
  {
    assert links[..i + 1][..i] == links[..i];
  }

  lemma {:induction false} TargetListed(links: seq<Link>, i: nat, required: set<string>)
    requires i < |links| && links[i].name in required && links[i].target.Some?
    ensures links[i].target.value in Targets(links, required)
    decreases |links|
  {
    if i < |links| - 1 { TargetListed(links[..|links| - 1], i, required); }
  }

  lemma FollowPast(
    reader: StoreReader, roots: seq<string>, met: set<Node>, keep: set<string>, queue: seq<Frame>, visited: set<string>,
    frame: Frame, n: nat)
    requires Following(reader, roots, met, keep, queue, visited, frame, n) && n < |LinksIn(reader, frame.nodeModules)|
    requires var l := LinksIn(reader, frame.nodeModules)[n];
      l.name !in frame.required || l.target.None? || l.target.value in met
    ensures Following(reader, roots, met, keep, queue, visited, frame, n + 1)
  {
    TargetsStep(LinksIn(reader, frame.nodeModules), n, frame.required);
    hide Targets, Sound, Walked, Handled, Origins, Queued, FrameOf;
  }

  lemma TargetIsNeeded(reader: StoreReader, roots: seq<string>, met: set<Node>, keep: set<string>, frame: Frame, n: nat)
    requires Sound(reader, roots, met, keep) && frame == FrameOf(reader)(frame.origin) && frame.origin in met
    requires n < |LinksIn(reader, frame.nodeModules)|
    requires var l := LinksIn(reader, frame.nodeModules)[n]; l.name in frame.required && l.target.Some?
    ensures Needed(reader, roots, LinksIn(reader, frame.nodeModules)[n].target.value)
  {
    var links := LinksIn(reader, frame.nodeModules);
    TargetListed(links, n, frame.required);
    StepReachable(Requires(reader), Roots(roots), frame.origin, links[n].target.value);
  }

  lemma WalkedStays(reader: StoreReader, met: set<Node>, more: set<Node>, visited: set<string>)
    requires Walked(reader, met, visited)
    ensures Walked(reader, met + more, visited)
  {
    hide Requires;
    forall d | d in visited
      ensures exists v :: v in met + more && reader.nodeModulesOf(v) == d && forall m :: m in Requires(reader)(v) ==>
        m in met + more
    {
      var v :| v in met && reader.nodeModulesOf(v) == d && forall m :: m in Requires(reader)(v) ==> m in met;
      assert v in met + more;
    }
  }

  lemma SoundGrows(reader: StoreReader, roots: seq<string>, met: set<Node>, keep: set<string>, m: Node)
    requires Sound(reader, roots, met, keep) && Needed(reader, roots, m)
    ensures Sound(reader, roots, met + {m}, if m.StoreEntry? then keep + {m.id} else keep)
  {
    hide Needed;
  }

  lemma QueueGrows(reader: StoreReader, met: set<Node>, queue: seq<Frame>, visited: set<string>, m: Node)
    requires Queued(reader, queue) && Origins(queue) <= met && Handled(reader, met, queue, visited)
    ensures var after := queue + [FrameOf(reader)(m)];
      Queued(reader, after) && Origins(after) <= met + {m} && Handled(reader, met + {m}, after, visited)
  {
    assert FrameOf(reader)(m).origin == m;
    OriginsGrow(queue, FrameOf(reader)(m));
    hide Origins, FrameOf;
  }

  /** A package met for the first time is queued. */
  lemma Meet(
    reader: StoreReader, roots: seq<string>, met: set<Node>, keep: set<string>, queue: seq<Frame>, visited: set<string>,
    frame: Frame, n: nat)
    requires Following(reader, roots, met, keep, queue, visited, frame, n) && n < |LinksIn(reader, frame.nodeModules)|
    requires var l := LinksIn(reader, frame.nodeModules)[n]; l.name in frame.required && l.target.Some?
    ensures var m := LinksIn(reader, frame.nodeModules)[n].target.value;
      Following(reader, roots, met + {m}, if m.StoreEntry? then keep + {m.id}
        else keep, queue + [FrameOf(reader)(m)], visited, frame, n + 1)
  {
    var m := LinksIn(reader, frame.nodeModules)[n].target.value;
    TargetsStep(LinksIn(reader, frame.nodeModules), n, frame.required);
    TargetIsNeeded(reader, roots, met, keep, frame, n);
    WalkedStays(reader, met, {m}, visited - {frame.nodeModules});
    SoundGrows(reader, roots, met, keep, m);
    QueueGrows(reader, met, queue, visited, m);
    hide Targets, Walked, Origins, FrameOf, Needed, RequiredBy, Sound, Handled, Queued, LinksIn;
  }

  lemma Leave(
    reader: StoreReader, roots: seq<string>, met: set<Node>, keep: set<string>, queue: seq<Frame>, visited: set<string>,
    frame: Frame)
    requires Following(reader, roots, met, keep, queue, visited, frame, |LinksIn(reader, frame.nodeModules)|)
    ensures Walking(reader, roots, met, keep, queue, visited)
  {
    var links := LinksIn(reader, frame.nodeModules);
    assert links[..|links|] == links;
    assert Requires(reader)(frame.origin) == Targets(links, frame.required);
    hide Targets, Origins, RequiredBy, Sound, Handled, LinksIn, Requires;
    forall d | d in visited
      ensures exists v :: v in met && reader.nodeModulesOf(v) == d && forall m :: m in Requires(reader)(v) ==> m in met
    {
      if d == frame.nodeModules {
        assert frame.origin in met && reader.nodeModulesOf(frame.origin) == d;
      } else {
        assert d in visited - {frame.nodeModules};
      }
    }
  }

  /** The walk keeps nothing that is not needed, and when shared directories agree it keeps all that is. */
  ghost predicate Right(reader: StoreReader, roots: seq<string>, keep: set<string>) {
    && (forall id :: id in keep ==> Needed(reader, roots, StoreEntry(id)))
    && (SharedDirsAgree(reader, roots) ==> forall id :: Needed(reader, roots, StoreEntry(id)) ==> id in keep)
  }

  lemma WalkEnds(reader: StoreReader, roots: seq<string>, met: set<Node>, keep: set<string>, visited: set<string>)
    requires Walking(reader, roots, met, keep, [], visited)
    ensures Right(reader, roots, keep)
  {
    if SharedDirsAgree(reader, roots) {
      assert Origins([]) == {};
      forall n, m | n in met && m in Requires(reader)(n) ensures m in met {
        hide Requires, Origins, Needed;
        assert reader.nodeModulesOf(n) in visited;
        var v :| v in met && reader.nodeModulesOf(v) == reader.nodeModulesOf(n) && forall m ::
          m in Requires(reader)(v) ==> m in met;
        assert Needed(reader, roots, v) && Needed(reader, roots, n);
      }
      forall id | Needed(reader, roots, StoreEntry(id)) ensures id in keep {
        hide Requires;
        ReachableIn(Requires(reader), Roots(roots), met, StoreEntry(id));
      }
    }
  }

  lemma KeptIsMet(
    reader: StoreReader, roots: seq<string>, met: set<Node>, keep: set<string>, queue: seq<Frame>, visited: set<string>,
    frame: Frame, n: nat, id: string)
    requires Following(reader, roots, met, keep, queue, visited, frame, n) && id in keep
    ensures StoreEntry(id) in met
  {
  }

  lemma {:induction false} FollowMeets(
    reader: StoreReader, roots: seq<string>, met: set<Node>, keep: set<string>, queue: seq<Frame>, visited: set<string>,
    frame: Frame, n: nat) returns (after: set<Node>)
    requires Following(reader, roots, met, keep, queue, visited, frame, 0) && n <= |LinksIn(reader, frame.nodeModules)|
    ensures var (k, q) := Follow(reader, frame, keep, queue, n);
      Following(reader, roots, after, k, q, visited, frame, n)
  {
    if n == 0 {
      after := met;
    } else {
      hide Following, LinksIn, FrameOf;
      after := FollowMeets(reader, roots, met, keep, queue, visited, frame, n - 1);
      var (k, q) := Follow(reader, frame, keep, queue, n - 1);
      var l := LinksIn(reader, frame.nodeModules)[n - 1];
      if l.name !in frame.required || l.target.None? {
        FollowPast(reader, roots, after, k, q, visited, frame, n - 1);
      } else if l.target.value.StoreEntry? && l.target.value.id in k {
        KeptIsMet(reader, roots, after, k, q, visited, frame, n - 1, l.target.value.id);
        FollowPast(reader, roots, after, k, q, visited, frame, n - 1);
      } else {
        Meet(reader, roots, after, k, q, visited, frame, n - 1);
        after := after + {l.target.value};
      }
    }
  }

  lemma {:induction false} WalkIsRight(
    reader: StoreReader, roots: seq<string>, met: set<Node>, keep: set<string>, queue: seq<Frame>, visited: set<string>)
    requires Walking(reader, roots, met, keep, queue, visited)
    ensures Right(reader, roots, Walk(reader, keep, queue, visited))
    decreases reader.links.Keys - visited, |queue|
  {
    hide Walking, Following, Right, FrameOf;
    if queue == [] {
      WalkEnds(reader, roots, met, keep, visited);
    } else if queue[0].nodeModules in visited {
      SkipVisited(reader, roots, met, keep, queue, visited);
      WalkIsRight(reader, roots, met, keep, queue[1..], visited);
    } else {
      var frame, n := queue[0], |LinksIn(reader, queue[0].nodeModules)|;
      Enter(reader, roots, met, keep, queue, visited);
      var entered := visited + {frame.nodeModules};
      var after := FollowMeets(reader, roots, met, keep, queue[1..], entered, frame, n);
      var (k, q) := Follow(reader, frame, keep, queue[1..], n);
      Leave(reader, roots, after, k, q, entered, frame);
      WalkIsRight(reader, roots, after, k, q, entered);
    }
  }

  lemma ClosureIsRight(reader: StoreReader, roots: seq<string>)
    ensures Right(reader, roots, Closure(reader, roots))
  {
    WalkStarts(reader, roots);
    hide Right, Walk;
    WalkIsRight(reader, roots, set n | n in Roots(roots), {}, Map(Roots(roots), FrameOf(reader)), {});
  }

  /** Each kept entry is recorded with a package that requires it and the name it links it under. */
  ghost predicate Explained(reader: StoreReader, reachedVia: map<string, (Node, string)>) {
    forall id :: id in reachedVia ==>
      var (origin, name) := reachedVia[id];
      name in RequiredBy(reader, origin) && Link(name, Some(StoreEntry(id))) in
        LinksIn(reader, reader.nodeModulesOf(origin))
  }

  lemma RootsQueued(reader: StoreReader, roots: seq<string>)
    ensures Queued(reader, Map(Roots(roots), FrameOf(reader)))
  {
  }

  /** One more link, as the loop meets it. */
  lemma FollowOne(
    reader: StoreReader, frame: Frame, before: set<string>, waiting: seq<Frame>, i: nat, keep: set<string>,
    queue: seq<Frame>)
    requires i < |LinksIn(reader, frame.nodeModules)|
    requires (keep, queue) == Follow(reader, frame, before, waiting, i)
    ensures var l := LinksIn(reader, frame.nodeModules)[i];
      Follow(reader, frame, before, waiting, i + 1) ==
      if l.name !in frame.required || l.target.None? || (l.target.value.StoreEntry? && l.target.value.id in keep)
        then (keep, queue)
      else (if l.target.value.StoreEntry? then keep + {l.target.value.id}
        else keep, queue + [FrameOf(reader)(l.target.value)])
  {
  }

  lemma QueuedMore(reader: StoreReader, queue: seq<Frame>, n: Node)
    requires Queued(reader, queue)
    ensures Queued(reader, queue + [FrameOf(reader)(n)])
  {
  }

  lemma QueuedFirst(reader: StoreReader, queue: seq<Frame>)
    requires Queued(reader, queue) && queue != []
    ensures Queued(reader, queue[1..]) && queue[0] == FrameOf(reader)(queue[0].origin)
  {
  }

  lemma ExplainedMore(reader: StoreReader, reachedVia: map<string, (Node, string)>, frame: Frame, l: Link)
    requires Explained(reader, reachedVia) && frame == FrameOf(reader)(frame.origin)
    requires l in LinksIn(reader, frame.nodeModules) && l.name in frame.required && l.target.Some? &&
      l.target.value.StoreEntry?
    ensures Explained(reader, reachedVia[l.target.value.id := (frame.origin, l.name)])
  {
    assert l == Link(l.name, Some(StoreEntry(l.target.value.id)));
    hide LinksIn, RequiredBy;
  }

  lemma NothingExplained(reader: StoreReader)
    ensures Explained(reader, map[])
  {
  }

  method ComputeClosure(reader: StoreReader, workspaceRoots: seq<string>)
    returns (keep: set<string>, reachedVia: map<string, (Node, string)>)
    ensures keep == Closure(reader, workspaceRoots) && reachedVia.Keys == keep && Explained(reader, reachedVia)
    ensures forall id :: id in keep ==> Needed(reader, workspaceRoots, StoreEntry(id))
    ensures SeparateDirs(reader.nodeModulesOf) ==> forall id :: Needed(reader, workspaceRoots, StoreEntry(id)) ==>
      id in keep
  {
    hide Needed, RequiredBy, FrameOf, LinksIn, Queued, Explained, SeparateDirs, Follow;
    keep, reachedVia := {}, map[];
    var visited: set<string> := {};
    var queue := Map(Roots(workspaceRoots), FrameOf(reader));
    RootsQueued(reader, workspaceRoots);
    NothingExplained(reader);
    while queue != []
      invariant Walk(reader, keep, queue, visited) == Closure(reader, workspaceRoots)
      invariant reachedVia.Keys == keep && Explained(reader, reachedVia) && Queued(reader, queue)
      decreases reader.links.Keys - visited, |queue|
    {
      var frame := queue[0];
      QueuedFirst(reader, queue);
      queue := queue[1..];
      if frame.nodeModules !in visited {
        ghost var before, waiting := keep, queue;
        visited := visited + {frame.nodeModules};
        var links := LinksIn(reader, frame.nodeModules);
        UnknownHasNoLinks(reader, frame.nodeModules);
        FollowNone(reader, frame, keep, queue);
        for i := 0 to |links|
          invariant (keep, queue) == Follow(reader, frame, before, waiting, i)
          invariant reachedVia.Keys == keep && Explained(reader, reachedVia) && Queued(reader, queue)
        {
          var l := links[i];
          FollowOne(reader, frame, before, waiting, i, keep, queue);
          if l.name in frame.required && l.target.Some? && !(l.target.value.StoreEntry? && l.target.value.id in keep) {
            if l.target.value.StoreEntry? {
              ExplainedMore(reader, reachedVia, frame, l);
              keep := keep + {l.target.value.id};
              reachedVia := reachedVia[l.target.value.id := (frame.origin, l.name)];
            }
            QueuedMore(reader, queue, l.target.value);
            queue := queue + [FrameOf(reader)(l.target.value)];
          }
        }
      }
    }
    ClosureIsRight(reader, workspaceRoots);
    if SeparateDirs(reader.nodeModulesOf) { SeparateDirsAgree(reader, workspaceRoots); }
  }

  lemma FollowNone(reader: StoreReader, frame: Frame, keep: set<string>, queue: seq<Frame>)
    ensures Follow(reader, frame, keep, queue, 0) == (keep, queue)
  {
  }

  lemma UnknownHasNoLinks(reader: StoreReader, dir: string)
    ensures dir !in reader.links ==> LinksIn(reader, dir) == []
  {
  }

  // ---- when the walk is exact ---------------------------------------------------------------------------

  ghost predicate Exact(reader: StoreReader, roots: seq<string>) {
    forall id :: id in Closure(reader, roots) <==> Needed(reader, roots, StoreEntry(id))
  }

  lemma SeparateDirsAgree(reader: StoreReader, roots: seq<string>)
    requires SeparateDirs(reader.nodeModulesOf)
    ensures SharedDirsAgree(reader, roots)
  {
  }

  const MISSED := "x"

  /** `second` requires the entry of this id, `first` requires nothing, any other package requires both. */
  function Manifests(id: string, first: Node, second: Node): Node -> Manifest {
    (n: Node) => Manifest(if n == second then {MISSED} else if n == first then {} else {"first", "second"}, {}, {}, {})
  }

  function MissedLink(id: string): seq<Link> { [Link(MISSED, Some(StoreEntry(id)))] }

  /** A store in which the two packages share their directory. */
  ghost predicate Shared(reader: StoreReader, id: string, first: Node, second: Node) {
    && first != second && StoreEntry(id) != first && StoreEntry(id) != second
    && reader.nodeModulesOf(first) == reader.nodeModulesOf(second)
    && reader.manifestOf == Manifests(id, first, second)
    && LinksIn(reader, reader.nodeModulesOf(first)) == MissedLink(id)
  }

  /** The directory is walked for the first package only, so what the second requires of it is not kept. */
  lemma SecondIsSkipped(
    reader: StoreReader, id: string, first: Node, second: Node, keep: set<string>, visited: set<string>)
    requires Shared(reader, id, first, second) && reader.nodeModulesOf(first) !in visited
    ensures Walk(reader, keep, [FrameOf(reader)(first), FrameOf(reader)(second)], visited) == keep
  {
    var f, g, dir := FrameOf(reader)(first), FrameOf(reader)(second), reader.nodeModulesOf(first);
    assert [f, g][1..] == [g] && [g][1..] == [];
    assert Follow(reader, f, keep, [g], 0) == (keep, [g]);
    assert Follow(reader, f, keep, [g], 1) == (keep, [g]);
    assert Walk(reader, keep, [f, g], visited) == Walk(reader, keep, [g], visited + {dir});
    assert Walk(reader, keep, [g], visited + {dir}) == Walk(reader, keep, [], visited + {dir});
  }

  lemma SecondNeeds(reader: StoreReader, roots: seq<string>, id: string, first: Node, second: Node)
    requires Shared(reader, id, first, second) && Needed(reader, roots, second)
    ensures Needed(reader, roots, StoreEntry(id))
  {
    var links := LinksIn(reader, reader.nodeModulesOf(second));
    TargetListed(links, 0, RequiredBy(reader, second));
    StepReachable(Requires(reader), Roots(roots), second, StoreEntry(id));
  }

  lemma TwoRoots(reader: StoreReader, first: string, second: string)
    ensures Map(Roots([first, second]), FrameOf(reader)) ==
      [FrameOf(reader)(Workspace(first)), FrameOf(reader)(Workspace(second))]
  {
  }

  lemma SharedRoots(reader: StoreReader, first: string, second: string, id: string)
    requires Shared(reader, id, Workspace(first), Workspace(second))
    ensures !Exact(reader, [first, second])
  {
    var a, b, roots := Workspace(first), Workspace(second), [first, second];
    hide Shared, Walk, Requires;
    TwoRoots(reader, first, second);
    SecondIsSkipped(reader, id, a, b, {}, {});
    assert Roots(roots)[1] == b;
    RootReachable(Requires(reader), Roots(roots), b);
    SecondNeeds(reader, roots, id, a, b);
  }

  /** Two workspaces in one directory. */
  lemma WorkspacesShare(nodeModulesOf: Node -> string, first: string, second: string, id: string)
    requires first != second && nodeModulesOf(Workspace(first)) == nodeModulesOf(Workspace(second))
    ensures exists reader: StoreReader, roots :: reader.nodeModulesOf == nodeModulesOf && !Exact(reader, roots)
  {
    var a, b := Workspace(first), Workspace(second);
    var reader := StoreReader(map[nodeModulesOf(a) := MissedLink(id)], Manifests(id, a, b), nodeModulesOf);
    SharedRoots(reader, first, second, id);
    hide Exact;
  }

  function BothLinks(first: Node, second: Node): seq<Link> {
    [Link("first", Some(first)), Link("second", Some(second))]
  }

  function LinkingStore(
    nodeModulesOf: Node -> string, root: string, first: Node, second: Node, id: string): StoreReader
  {
    StoreReader(
      map[nodeModulesOf(Workspace(root)) := BothLinks(first, second), nodeModulesOf(first) := MissedLink(id)],
      Manifests(id, first, second), nodeModulesOf)
  }

  /** A workspace elsewhere that links to both packages. */
  lemma LinkedShare(nodeModulesOf: Node -> string, root: string, first: Node, second: Node, id: string)
    requires first != second && nodeModulesOf(first) == nodeModulesOf(second) != nodeModulesOf(Workspace(root))
    requires StoreEntry(id) != first && StoreEntry(id) != second
    ensures exists reader: StoreReader, roots :: reader.nodeModulesOf == nodeModulesOf && !Exact(reader, roots)
  {
    var w, reader := Workspace(root), LinkingStore(nodeModulesOf, root, first, second, id);
    LinkedWalk(nodeModulesOf, root, first, second, id);
    assert Roots([root])[0] == w;
    RootReachable(Requires(reader), Roots([root]), w);
    TargetListed(LinksIn(reader, nodeModulesOf(w)), 1, RequiredBy(reader, w));
    StepReachable(Requires(reader), Roots([root]), w, second);
    SecondNeeds(reader, [root], id, first, second);
    hide Walk, Closure, Needed;
    assert !Exact(reader, [root]);
  }

  lemma LinkedWalk(nodeModulesOf: Node -> string, root: string, first: Node, second: Node, id: string)
    requires first != second && nodeModulesOf(first) == nodeModulesOf(second) != nodeModulesOf(Workspace(root))
    requires StoreEntry(id) != first && StoreEntry(id) != second
    ensures id !in Closure(LinkingStore(nodeModulesOf, root, first, second, id), [root])
  {
    var reader := LinkingStore(nodeModulesOf, root, first, second, id);
    var f, a, b := FrameOf(reader)(Workspace(root)), FrameOf(reader)(first), FrameOf(reader)(second);
    assert Map(Roots([root]), FrameOf(reader)) == [f] && [f][1..] == [];
    assert LinksIn(reader, f.nodeModules) == BothLinks(first, second);
    assert f.required == {"first", "second"};
    var one: set<string> := if first.StoreEntry? then {first.id} else {};
    var k := if second.StoreEntry? then one + {second.id} else one;
    var q := [a, b];
    FollowNone(reader, f, {}, []);
    FollowOne(reader, f, {}, [], 0, {}, []);
    assert {} + one == one && [] + [a] == [a] && [a] + [b] == q;
    FollowOne(reader, f, {}, [], 1, one, [a]);
    assert Follow(reader, f, {}, [], 2) == (k, q) by { hide Follow; }
    SecondIsSkipped(reader, id, first, second, k, {f.nodeModules});
    WalkEnters(reader, {}, [f], {}, k, q);
    assert {} + {f.nodeModules} == {f.nodeModules};
  }

  lemma WalkEnters(
    reader: StoreReader, keep: set<string>, queue: seq<Frame>, visited: set<string>, after: set<string>,
    rest: seq<Frame>)
    requires queue != [] && queue[0].nodeModules !in visited
    requires (after, rest) == Follow(reader, queue[0], keep, queue[1..], |LinksIn(reader, queue[0].nodeModules)|)
    ensures Walk(reader, keep, queue, visited) == Walk(reader, after, rest, visited + {queue[0].nodeModules})
  {
  }

  /** Some text that is neither of two. */
  lemma FreshId(first: Node, second: Node) returns (id: string)
    ensures StoreEntry(id) != first && StoreEntry(id) != second
  {
    id := if StoreEntry("") != first && StoreEntry("") != second then ""
          else if StoreEntry("a") != first && StoreEntry("a") != second then "a" else "b";
  }

  /**
   * The walk is exact on every store laid out by `nodeModulesOf` if and only if no two packages
   * share a directory.
   */
  lemma ExactWhenDirsAreSeparate(nodeModulesOf: Node -> string)
    ensures (forall reader: StoreReader, roots :: reader.nodeModulesOf == nodeModulesOf ==> Exact(reader, roots)) <==>
      SeparateDirs(nodeModulesOf)
  {
    hide Closure, Needed, SharedDirsAgree;
    if SeparateDirs(nodeModulesOf) {
      forall reader: StoreReader, roots | reader.nodeModulesOf == nodeModulesOf ensures Exact(reader, roots) {
        ClosureIsRight(reader, roots);
        SeparateDirsAgree(reader, roots);
      }
    } else {
      hide Exact;
      var a, b :| nodeModulesOf(a) == nodeModulesOf(b) && a != b;
      var id := FreshId(a, b);
      if nodeModulesOf(Workspace("")) == nodeModulesOf(Workspace("w")) {
        WorkspacesShare(nodeModulesOf, "", "w", id);
      } else if nodeModulesOf(Workspace("")) != nodeModulesOf(a) {
        LinkedShare(nodeModulesOf, "", a, b, id);
      } else {
        LinkedShare(nodeModulesOf, "w", a, b, id);
      }
    }
  }

  // ---- pruning ------------------------------------------------------------------------------------------

  const BOOKKEEPING := "node_modules"

  function IsDead(keep: set<string>): string -> bool { (id: string) => id != BOOKKEEPING && id !in keep }

  function DeadStoreEntries(all: seq<string>, keep: set<string>, textAtMost: (string, string) -> bool): seq<string> {
    Sort(Filter(all, IsDead(keep)), textAtMost)
  }

  /** Pruning what the walk did not reach never takes away a package that a kept one requires. */
  lemma {:induction false} PruningIsSafe(
    reader: StoreReader, roots: seq<string>, all: seq<string>, textAtMost: (string, string) -> bool, id: string,
    needed: string)
    requires SeparateDirs(reader.nodeModulesOf)
    requires id in Closure(reader, roots) && StoreEntry(needed) in Requires(reader)(StoreEntry(id))
    ensures needed in Closure(reader, roots) && needed !in DeadStoreEntries(all, Closure(reader, roots), textAtMost)
  {
    hide Sort, Filter, Requires, Closure;
    var keep := Closure(reader, roots);
    ClosureIsRight(reader, roots);
    SeparateDirsAgree(reader, roots);
    StepReachable(Requires(reader), Roots(roots), StoreEntry(id), StoreEntry(needed));
    var dead := Filter(all, IsDead(keep));
    SortKeeps(dead, textAtMost);
    SameElements(Sort(dead, textAtMost), dead);
    FilterMember(all, IsDead(keep), needed);
  }

  /** Dead is exactly what the store lists, the walk did not reach and is not the store's own bookkeeping, sorted. */
  lemma DeadExactly(all: seq<string>, keep: set<string>, textAtMost: (string, string) -> bool)
    requires TotalOrder(textAtMost)
    ensures var dead := DeadStoreEntries(all, keep, textAtMost);
      && multiset(dead) == multiset(Filter(all, (id: string) => id != "node_modules" && id !in keep))
      && forall i, j :: 0 <= i < j < |dead| ==> textAtMost(dead[i], dead[j])
  {
    FilterAgrees(all, IsDead(keep), (id: string) => id != "node_modules" && id !in keep);
    SortKeeps(Filter(all, IsDead(keep)), textAtMost);
    SortOrdered(Filter(all, IsDead(keep)), textAtMost);
    hide Sort, Filter, TotalOrder;
  }
}
