// What the first pass fills in and links, row by row: an entry without a date that a neighbouring
// screenshot repeats with one.
module InferTwins {
  import opened Sequences
  import opened Sorting
  import opened ImportRows
  import opened ImportChunks
  import opened ImportScreens
  import opened InferDates
  import opened ScreenVotes

  // ---- what becomes of a row ----------------------------------------------------------------------

  /** The same entry in a neighbouring screenshot. */
  predicate Neighbour(text: Text, rows: seq<Row>, i: nat, j: nat) {
    && i < |rows| && j < |rows| && Repeats(text, rows[i], rows[j])
    && (rows[j].imageIndex == rows[i].imageIndex + 1 || rows[i].imageIndex == rows[j].imageIndex + 1)
  }

  /** Rows are visited in order: the date row `i` sees on row `j`. */
  function DateSeen(rows: seq<Row>, now: seq<Row>, i: nat, j: nat): Option<string>
    requires |now| == |rows| && j < |rows|
  {
    if j < i then now[j].date else rows[j].date
  }

  predicate Source(text: Text, rows: seq<Row>, now: seq<Row>, i: nat, j: nat)
    requires |now| == |rows|
  {
    Neighbour(text, rows, i, j) && DateSeen(rows, now, i, j).Some?
  }

  /** Row `i` takes the one date its sources agree on, and `j` is the first of them. */
  predicate TakesFrom(text: Text, rows: seq<Row>, now: seq<Row>, i: nat, j: nat)
    requires |now| == |rows|
  {
    && i < |rows| && rows[i].date.None? && Source(text, rows, now, i, j)
    && (forall k :: 0 <= k < |rows| && Source(text, rows, now, i, k) ==>
      j <= k && DateSeen(rows, now, i, k) == DateSeen(rows, now, i, j))
  }

  ghost predicate TwinDated(text: Text, rows: seq<Row>, now: seq<Row>, i: nat)
    requires |now| == |rows| && i < |rows|
  {
    || (now[i].date == rows[i].date && now[i].dateInferred == rows[i].dateInferred &&
        forall j :: !TakesFrom(text, rows, now, i, j))
    || (now[i].dateInferred &&
        exists j: nat :: j < |rows| && TakesFrom(text, rows, now, i, j) && now[i].date == DateSeen(rows, now, i, j))
  }

  /** Taking its date, row `i` asks to link the later of the two captures to the earlier one. */
  predicate Asks(text: Text, rows: seq<Row>, now: seq<Row>, i: nat, later: nat, earlier: nat)
    requires |now| == |rows|
  {
    exists j: nat :: j < |rows| && TakesFrom(text, rows, now, i, j) &&
      if rows[j].imageIndex < rows[i].imageIndex then later == i && earlier == j else later == j && earlier == i
  }

  ghost predicate FirstAsks(text: Text, rows: seq<Row>, now: seq<Row>, i: nat, later: nat, earlier: nat)
    requires |now| == |rows|
  {
    Asks(text, rows, now, i, later, earlier) && forall k: nat, e: nat :: k < i ==> !Asks(text, rows, now, k, later, e)
  }

  /** The first row that asks decides, unless a relation was read. */
  ghost predicate TwinLinked(text: Text, rows: seq<Row>, now: seq<Row>, x: nat)
    requires |now| == |rows| && x < |rows|
  {
    || (now[x].relation == rows[x].relation &&
        (rows[x].relation.Some? || forall i: nat, e: nat :: !Asks(text, rows, now, i, x, e)))
    || (rows[x].relation.None? &&
        exists i: nat, e: nat :: FirstAsks(text, rows, now, i, x, e) && Linked(rows, now[x], e))
  }

  predicate Linked(rows: seq<Row>, row: Row, e: nat) {
    e < |rows| && row.relation == Some(Relation(DuplicateOf, rows[e].rowId))
  }

  /** Dates, flags and links after the first pass; nothing else of a row changes. */
  ghost predicate TwinPass(text: Text, rows: seq<Row>, now: seq<Row>) {
    |now| == |rows| && forall x :: 0 <= x < |rows| ==>
      InferDates.SameFacts(rows[x], now[x]) && TwinDated(text, rows, now, x) && TwinLinked(text, rows, now, x)
  }

  // ---- the rows visited so far --------------------------------------------------------------------

  /** Of the entries that repeat each other, the earlier rows are visited first. */
  ghost predicate Closed(text: Text, rows: seq<Row>, done: set<nat>) {
    forall i: nat, j: nat :: i in done && j < i < |rows| && SameTwin(text, rows[i], rows[j]) ==> j in done
  }

  ghost predicate DatedSoFar(text: Text, rows: seq<Row>, now: seq<Row>, done: set<nat>)
    requires |now| == |rows|
  {
    forall x: nat :: x < |rows| ==>
      InferDates.SameFacts(rows[x], now[x]) &&
      if x in done then TwinDated(text, rows, now, x)
      else now[x].date == rows[x].date && now[x].dateInferred == rows[x].dateInferred
  }

  ghost predicate FirstAmong(
    text: Text, rows: seq<Row>, now: seq<Row>, done: set<nat>, i: nat, later: nat, earlier: nat)
    requires |now| == |rows|
  {
    && i in done && Asks(text, rows, now, i, later, earlier)
    && forall k: nat, e: nat :: k in done && k < i ==> !Asks(text, rows, now, k, later, e)
  }

  ghost predicate LinkedAmong(text: Text, rows: seq<Row>, now: seq<Row>, done: set<nat>, x: nat)
    requires |now| == |rows| && x < |rows|
  {
    || (now[x].relation == rows[x].relation &&
        (rows[x].relation.Some? || forall i: nat, e: nat :: i in done ==> !Asks(text, rows, now, i, x, e)))
    || (rows[x].relation.None? &&
        exists i: nat, e: nat :: FirstAmong(text, rows, now, done, i, x, e) && Linked(rows, now[x], e))
  }

  ghost predicate LinkedSoFar(text: Text, rows: seq<Row>, now: seq<Row>, done: set<nat>)
    requires |now| == |rows|
  {
    forall x: nat :: x < |rows| ==> LinkedAmong(text, rows, now, done, x)
  }

  /** What the visited rows see does not change any more. */
  lemma SeenStays(text: Text, rows: seq<Row>, now: seq<Row>, next: seq<Row>, x: nat)
    requires |now| == |rows| == |next|
    requires forall k: nat :: k < x && k < |rows| && Neighbour(text, rows, x, k) ==> next[k].date == now[k].date
    ensures forall j: nat :: j < |rows| ==> (TakesFrom(text, rows, next, x, j) <==> TakesFrom(text, rows, now, x, j))
    ensures forall j: nat :: j < |rows| && TakesFrom(text, rows, now, x, j) ==>
      DateSeen(rows, next, x, j) == DateSeen(rows, now, x, j)
    ensures forall y, e :: Asks(text, rows, next, x, y, e) <==> Asks(text, rows, now, x, y, e)
  {
    hide Neighbour, Before;
    forall k: nat | k < |rows|
      ensures Source(text, rows, next, x, k) <==> Source(text, rows, now, x, k)
      ensures Source(text, rows, now, x, k) ==> DateSeen(rows, next, x, k) == DateSeen(rows, now, x, k)
    {
    }
    hide Source, DateSeen;
    forall j: nat | j < |rows| ensures TakesFrom(text, rows, next, x, j) <==> TakesFrom(text, rows, now, x, j) {
      TakesFromStays(text, rows, now, next, x, j);
    }
    hide TakesFrom;
  }

  lemma TakesFromStays(text: Text, rows: seq<Row>, now: seq<Row>, next: seq<Row>, x: nat, j: nat)
    requires |now| == |rows| == |next| && j < |rows|
    requires forall k: nat :: k < |rows| ==>
      (Source(text, rows, next, x, k) <==> Source(text, rows, now, x, k)) &&
      (Source(text, rows, now, x, k) ==> DateSeen(rows, next, x, k) == DateSeen(rows, now, x, k))
    ensures TakesFrom(text, rows, next, x, j) <==> TakesFrom(text, rows, now, x, j)
  {
    hide Source, DateSeen;
  }

  // ---- one row visited ----------------------------------------------------------------------------

  /** The members a row is visited with: all that repeat it, in the order of the rows. */
  ghost predicate Class(text: Text, rows: seq<Row>, members: seq<nat>, i: nat) {
    && i < |rows| && i in members && Rising(members)
    && forall j: nat :: j in members <==> j < |rows| && SameTwin(text, rows[i], rows[j])
  }

  lemma SourceIsNeighbour(
    text: Text, rows: seq<Row>, now: seq<Row>, done: set<nat>, members: seq<nat>, i: nat, j: nat)
    requires |now| == |rows| && Class(text, rows, members, i) && i !in done && Closed(text, rows, done)
    requires forall k: nat :: k in members && k < i ==> k in done
    requires DatedSoFar(text, rows, now, done)
    ensures j in members && IsDatedNeighbour(now, i)(j) <==> j < |rows| && Source(text, rows, now, i, j)
    ensures j < |rows| && Source(text, rows, now, i, j) ==> DateSeen(rows, now, i, j) == now[j].date
  {
    FactsOfRow(rows[i], now[i]);
    if j < |rows| {
      FactsOfRow(rows[j], now[j]);
      hide TwinDated, InferDates.SameFacts, IsTwinCandidate, TwinKey;
      if j > i && j in members { assert j !in done; }
    }
  }

  lemma FirstOfFiltered(members: seq<nat>, p: nat -> bool)
    requires Rising(members)
    ensures Rising(Filter(members, p))
  {
    var le := (a: nat, b: nat) => a < b;
    assert Ordered(members, le);
    FilterOrdered(members, p, le);
    var kept := Filter(members, p);
    forall a, b | 0 <= a < b < |kept| ensures kept[a] < kept[b] { assert le(kept[a], kept[b]); }
  }

  /** The list holds the sources of a row, in the order of the rows. */
  ghost predicate SourcesListed(text: Text, rows: seq<Row>, now: seq<Row>, i: nat, dated: seq<nat>)
    requires |now| == |rows|
  {
    && Rising(dated) && (forall j: nat :: j in dated <==> j < |rows| && Source(text, rows, now, i, j))
    && (forall j: nat :: j in dated ==> DateSeen(rows, now, i, j) == now[j].date)
  }

  lemma SourcesAreListed(text: Text, rows: seq<Row>, now: seq<Row>, done: set<nat>, members: seq<nat>, i: nat)
    requires |now| == |rows| && Class(text, rows, members, i) && i !in done && Closed(text, rows, done)
    requires forall k: nat :: k in members && k < i ==> k in done
    requires DatedSoFar(text, rows, now, done)
    ensures SourcesListed(text, rows, now, i, Filter(members, IsDatedNeighbour(now, i)))
  {
    var dated := Filter(members, IsDatedNeighbour(now, i));
    FirstOfFiltered(members, IsDatedNeighbour(now, i));
    forall j: nat
      ensures j in dated <==> j < |rows| && Source(text, rows, now, i, j)
      ensures j in dated ==> DateSeen(rows, now, i, j) == now[j].date
    {
      FilterMember(members, IsDatedNeighbour(now, i), j);
      SourceIsNeighbour(text, rows, now, done, members, i, j);
    }
    hide Filter, Class, Closed, DatedSoFar, IsDatedNeighbour, Source, DateSeen, Rising;
  }

  /** The sources decide whether, and from whom, the row takes its date. */
  lemma TakesWhat(text: Text, rows: seq<Row>, now: seq<Row>, i: nat, dated: seq<nat>)
    requires |now| == |rows| && i < |rows| && SourcesListed(text, rows, now, i, dated) && now[i].date == rows[i].date
    ensures if now[i].date.None? && OneDate(now, dated)
      then TakesFrom(text, rows, now, i, dated[0]) && now[dated[0]].date == DateSeen(rows, now, i, dated[0]) &&
           now[dated[0]].date.Some?
      else forall j: nat :: !TakesFrom(text, rows, now, i, j)
  {
    hide Neighbour;
    if now[i].date.None? {
      forall k: nat | k in dated ensures dated[0] <= k {
        var a :| 0 <= a < |dated| && dated[a] == k;
      }
      if dated != [] { assert dated[0] in dated; }
      forall j: nat | TakesFrom(text, rows, now, i, j) ensures OneDate(now, dated) {
        TakesFromInRange(text, rows, now, i, j);
        assert j in dated;
        forall k: nat | k in dated ensures now[k].date == now[j].date {}
      }
    }
  }

  /** Only row `i` has another date, and what it takes its date from stays. */
  ghost predicate DateChanged(rows: seq<Row>, now: seq<Row>, next: seq<Row>, i: nat) {
    && |now| == |rows| == |next| && i < |rows|
    && forall k: nat :: k < |rows| && k != i ==>
      next[k].date == now[k].date && next[k].dateInferred == now[k].dateInferred
  }

  lemma SeesSame(text: Text, rows: seq<Row>, now: seq<Row>, next: seq<Row>, done: set<nat>, i: nat, x: nat)
    requires DateChanged(rows, now, next, i) && i !in done && Closed(text, rows, done) && x in done + {i} && x < |rows|
    ensures forall j: nat :: j < |rows| ==> (TakesFrom(text, rows, next, x, j) <==> TakesFrom(text, rows, now, x, j))
    ensures forall j: nat :: j < |rows| && TakesFrom(text, rows, now, x, j) ==>
      DateSeen(rows, next, x, j) == DateSeen(rows, now, x, j)
    ensures forall y, e :: Asks(text, rows, next, x, y, e) <==> Asks(text, rows, now, x, y, e)
  {
    forall k: nat | k < |rows| && Neighbour(text, rows, x, k) ensures SameTwin(text, rows[x], rows[k]) {
      RepeatsMeans(text, rows[x], rows[k]);
    }
    hide SameTwin, TakesFrom, Asks, Source, Neighbour;
    SeenStays(text, rows, now, next, x);
  }

  lemma TakesFromInRange(text: Text, rows: seq<Row>, now: seq<Row>, i: nat, j: nat)
    requires |now| == |rows| && TakesFrom(text, rows, now, i, j)
    ensures j < |rows| && i < |rows| && rows[i].date.None?
  {
  }

  lemma DatesVisited(text: Text, rows: seq<Row>, now: seq<Row>, next: seq<Row>, done: set<nat>, i: nat)
    requires DateChanged(rows, now, next, i) && i !in done && Closed(text, rows, done)
    requires DatedSoFar(text, rows, now, done) && TwinDated(text, rows, next, i)
    requires forall x: nat :: x < |rows| ==> InferDates.SameFacts(rows[x], next[x])
    ensures DatedSoFar(text, rows, next, done + {i})
  {
    hide TakesFrom, InferDates.SameFacts, Closed;
    forall x: nat | x < |rows| && x in done ensures TwinDated(text, rows, next, x) {
      SeesSame(text, rows, now, next, done, i, x);
      forall j: nat | TakesFrom(text, rows, next, x, j) ensures j < |rows| { TakesFromInRange(text, rows, next, x, j); }
      assert TwinDated(text, rows, now, x);
    }
    hide TwinDated;
  }

  lemma AskersAreTwins(text: Text, rows: seq<Row>, now: seq<Row>, i: nat, x: nat, e: nat)
    requires |now| == |rows| && Asks(text, rows, now, i, x, e)
    ensures i < |rows| && x < |rows| && e < |rows| && SameTwin(text, rows[i], rows[x])
  {
    hide Source, Before;
    var j: nat :| j < |rows| && TakesFrom(text, rows, now, i, j) &&
      if rows[j].imageIndex < rows[i].imageIndex then x == i && e == j else x == j && e == i;
    assert Source(text, rows, now, i, j);
    SourceIsTwin(text, rows, now, i, j);
  }

  lemma SourceIsTwin(text: Text, rows: seq<Row>, now: seq<Row>, i: nat, j: nat)
    requires |now| == |rows| && Source(text, rows, now, i, j)
    ensures i < |rows| && SameTwin(text, rows[i], rows[j]) && SameTwin(text, rows[i], rows[i])
  {
  }

  /** Whoever asked before, for a row that `i` would link too, is an earlier row. */
  lemma AskedBefore(
    text: Text, rows: seq<Row>, now: seq<Row>, done: set<nat>, i: nat, k: nat, x: nat, e: nat, e': nat)
    requires |now| == |rows| && i !in done && k in done && Closed(text, rows, done)
    requires Asks(text, rows, now, i, x, e) && Asks(text, rows, now, k, x, e')
    ensures k < i
  {
    AskersAreTwins(text, rows, now, i, x, e);
    AskersAreTwins(text, rows, now, k, x, e');
    assert SameTwin(text, rows[k], rows[i]);
    hide Asks, SameTwin;
  }

  /** The link of row `x` after row `i` was visited. */
  lemma LinkVisited(text: Text, rows: seq<Row>, now: seq<Row>, next: seq<Row>, done: set<nat>, i: nat, x: nat)
    requires DateChanged(rows, now, next, i) && i !in done && Closed(text, rows, done) && x < |rows|
    requires LinkedAmong(text, rows, now, done, x) && forall k: nat :: k in done ==> k < |rows|
    requires (forall e: nat :: !Asks(text, rows, now, i, x, e)) ==> next[x].relation == now[x].relation
    requires forall e: nat :: Asks(text, rows, now, i, x, e) ==>
      if now[x].relation.None? then Linked(rows, next[x], e) else next[x].relation == now[x].relation
    ensures LinkedAmong(text, rows, next, done + {i}, x)
  {
    forall k: nat, e: nat | k in done + {i} ensures Asks(text, rows, next, k, x, e) <==>
      Asks(text, rows, now, k, x, e) {
      SeesSame(text, rows, now, next, done, i, k);
    }
    forall k: nat, e: nat, e': nat | k in done && Asks(text, rows, now, i, x, e) && Asks(text, rows, now, k, x, e')
      ensures k < i
    {
      AskedBefore(text, rows, now, done, i, k, x, e, e');
    }
    hide Asks, Closed, DateChanged, TakesFrom;
    if rows[x].relation.None? {
      if now[x].relation.Some? {
        var k: nat, e: nat :| FirstAmong(text, rows, now, done, k, x, e) && Linked(rows, now[x], e);
        assert next[x].relation == now[x].relation;
        assert FirstAmong(text, rows, next, done + {i}, k, x, e);
      } else if e: nat :| Asks(text, rows, now, i, x, e) {
        assert FirstAmong(text, rows, next, done + {i}, i, x, e);
      }
    }
  }

  /** The later and the earlier of two captures. */
  function LaterEarlier(rows: seq<Row>, i: nat, j: nat): (nat, nat)
    requires i < |rows| && j < |rows|
  {
    if rows[j].imageIndex < rows[i].imageIndex then (i, j) else (j, i)
  }

  lemma AsksOnly(text: Text, rows: seq<Row>, now: seq<Row>, i: nat, j: nat)
    requires |now| == |rows| && j < |rows| && TakesFrom(text, rows, now, i, j)
    ensures i < |rows|
    ensures forall x: nat, e: nat :: Asks(text, rows, now, i, x, e) <==> (x, e) == LaterEarlier(rows, i, j)
  {
    forall k: nat | k < |rows| && TakesFrom(text, rows, now, i, k) ensures k == j {}
    hide TakesFrom, Before;
  }

  /** What taking the date and linking the later capture changes. */
  lemma TakingChanges(rows: seq<Row>, now: seq<Row>, i: nat, j: nat, date: string)
    requires |now| == |rows| && i < |rows| && j < |rows| && rows[i].imageIndex != rows[j].imageIndex
    requires forall x: nat :: x < |rows| ==> InferDates.SameFacts(rows[x], now[x])
    ensures var next, pair := LinkLater(now[i := Dated(now[i], date)], i, j), LaterEarlier(rows, i, j);
      && DateChanged(rows, now, next, i) && next[i].date == Some(date) && next[i].dateInferred
      && (forall x: nat :: x < |rows| ==> InferDates.SameFacts(rows[x], next[x]))
      && (forall x: nat :: x < |rows| && x != pair.0 ==> next[x].relation == now[x].relation)
      && (if now[pair.0].relation.None? then Linked(rows, next[pair.0], pair.1)
          else next[pair.0].relation == now[pair.0].relation)
  {
    FactsOfRow(rows[i], now[i]);
    FactsOfRow(rows[j], now[j]);
    var filled := now[i := Dated(now[i], date)];
    assert InferDates.SameFacts(rows[i], filled[i]);
    assert Before(filled[j], filled[i]) <==> rows[j].imageIndex < rows[i].imageIndex;
    hide Before;
    var next, pair := LinkLater(filled, i, j), LaterEarlier(rows, i, j);
    assert next == if filled[pair.0].relation.None? then filled[pair.0 := LinkTo(filled[pair.0], filled[pair.1].rowId)]
      else filled;
    assert filled[pair.1].rowId == rows[pair.1].rowId;
  }

  ghost predicate SoFar(text: Text, rows: seq<Row>, now: seq<Row>, done: set<nat>) {
    && |now| == |rows| && Closed(text, rows, done) && (forall k: nat :: k in done ==> k < |rows|)
    && DatedSoFar(text, rows, now, done) && LinkedSoFar(text, rows, now, done)
  }

  lemma RowKept(text: Text, rows: seq<Row>, now: seq<Row>, done: set<nat>, i: nat)
    requires SoFar(text, rows, now, done) && i < |rows| && i !in done && Closed(text, rows, done + {i})
    requires forall j: nat :: !TakesFrom(text, rows, now, i, j)
    ensures SoFar(text, rows, now, done + {i})
  {
    forall x: nat, e: nat | Asks(text, rows, now, i, x, e) ensures false {
      hide TakesFrom, Before;
      assert false;
    }
    DatesVisited(text, rows, now, now, done, i);
    hide Asks, Closed, DatedSoFar, TakesFrom;
    forall x: nat | x < |rows| ensures LinkedAmong(text, rows, now, done + {i}, x) {
      assert DateChanged(rows, now, now, i);
      LinkVisited(text, rows, now, now, done, i, x);
    }
  }

  lemma TakesFromApart(text: Text, rows: seq<Row>, now: seq<Row>, i: nat, j: nat)
    requires |now| == |rows| && TakesFrom(text, rows, now, i, j)
    ensures i < |rows| && j < |rows| && rows[i].imageIndex != rows[j].imageIndex
  {
  }

  lemma RowTaken(text: Text, rows: seq<Row>, now: seq<Row>, done: set<nat>, i: nat, j: nat)
    requires SoFar(text, rows, now, done) && i < |rows| && i !in done && Closed(text, rows, done + {i}) && j < |rows|
    requires TakesFrom(text, rows, now, i, j) && now[j].date == DateSeen(rows, now, i, j) && now[j].date.Some?
    ensures SoFar(text, rows, LinkLater(now[i := Dated(now[i], now[j].date.value)], i, j), done + {i})
  {
    var next := LinkLater(now[i := Dated(now[i], now[j].date.value)], i, j);
    TakesFromApart(text, rows, now, i, j);
    TakingChanges(rows, now, i, j, now[j].date.value);
    hide LinkLater;
    SeesSame(text, rows, now, next, done, i, i);
    assert TwinDated(text, rows, next, i);
    DatesVisited(text, rows, now, next, done, i);
    AsksOnly(text, rows, now, i, j);
    hide Asks, Closed, DatedSoFar, TakesFrom, LaterEarlier, DateChanged, Linked;
    forall x: nat | x < |rows| ensures LinkedAmong(text, rows, next, done + {i}, x) {
      assert LinkedAmong(text, rows, now, done, x);
      LinkVisited(text, rows, now, next, done, i, x);
    }
  }

  lemma ClosedFurther(text: Text, rows: seq<Row>, done: set<nat>, members: seq<nat>, i: nat)
    requires Closed(text, rows, done) && Class(text, rows, members, i)
    requires forall k: nat :: k in members && k < i ==> k in done
    ensures Closed(text, rows, done + {i})
  {
    hide SameTwin, Rising;
  }

  lemma FillsAs(now: seq<Row>, members: seq<nat>, i: nat)
    requires i < |now|
    ensures var dated := Filter(members, IsDatedNeighbour(now, i));
      FillFromTwin(now, members, i) ==
        if now[i].date.None? && OneDate(now, dated) && now[dated[0]].date.Some?
        then LinkLater(now[i := Dated(now[i], now[dated[0]].date.value)], i, dated[0]) else now
  {
    var dated := Filter(members, IsDatedNeighbour(now, i));
    if dated != [] { FilterMember(members, IsDatedNeighbour(now, i), dated[0]); }
    hide LinkLater, Filter;
  }

  lemma RowVisited(text: Text, rows: seq<Row>, now: seq<Row>, done: set<nat>, members: seq<nat>, i: nat)
    requires SoFar(text, rows, now, done) && Class(text, rows, members, i) && i !in done
    requires forall k: nat :: k in members && k < i ==> k in done
    ensures SoFar(text, rows, FillFromTwin(now, members, i), done + {i})
  {
    var dated := Filter(members, IsDatedNeighbour(now, i));
    SourcesAreListed(text, rows, now, done, members, i);
    ClosedFurther(text, rows, done, members, i);
    FillsAs(now, members, i);
    assert now[i].date == rows[i].date;
    TakesWhat(text, rows, now, i, dated);
    var taken := now[i].date.None? && OneDate(now, dated);
    if taken { TakesFromInRange(text, rows, now, i, dated[0]); }
    hide *;
    if taken {
      RowTaken(text, rows, now, done, i, dated[0]);
    } else {
      RowKept(text, rows, now, done, i);
    }
  }

  // ---- all rows visited ---------------------------------------------------------------------------

  function Elements(s: seq<nat>): set<nat> { set i | i in s }

  ghost predicate WholeClass(text: Text, rows: seq<Row>, members: seq<nat>) {
    forall i: nat :: i in members ==> Class(text, rows, members, i)
  }

  lemma NextMember(done: set<nat>, members: seq<nat>, n: nat)
    requires n < |members| && Rising(members) && forall i: nat :: i in members ==> i !in done
    ensures members[n] in members && members[n] !in done + Elements(members[..n])
    ensures forall k: nat :: k in members && k < members[n] ==> k in done + Elements(members[..n])
    ensures done + Elements(members[..n + 1]) == done + Elements(members[..n]) + {members[n]}
  {
    TakeOneMore(members, n);
    forall k: nat | k in members && k < members[n] ensures k in members[..n] {
      var a :| 0 <= a < |members| && members[a] == k;
      assert members[..n][a] == k;
    }
  }

  lemma {:induction false} MembersVisited(
    text: Text, rows: seq<Row>, now: seq<Row>, done: set<nat>, members: seq<nat>, n: nat)
    requires n <= |members| && SoFar(text, rows, now, done) && WholeClass(text, rows, members)
    requires InRange(now, members) && Rising(members) && forall i: nat :: i in members ==> i !in done
    ensures SoFar(text, rows, FillMembers(now, members, n), done + Elements(members[..n]))
  {
    hide SoFar, Class, FillFromTwin, Elements, Rising;
    if n == 0 {
      NoElements(done, members);
    } else {
      MembersVisited(text, rows, now, done, members, n - 1);
      NextMember(done, members, n - 1);
      RowVisited(text, rows, FillMembers(now, members, n - 1), done + Elements(members[..n - 1]), members,
        members[n - 1]);
    }
  }

  lemma NoElements(done: set<nat>, members: seq<nat>)
    ensures done + Elements(members[..0]) == done
  {
  }

  ghost function Members(groups: seq<TwinGroup>, n: nat): set<nat>
    requires n <= |groups|
  {
    set g, i | 0 <= g < n && i in groups[g].members :: i
  }

  lemma {:induction false} GroupsVisited(text: Text, rows: seq<Row>, groups: seq<TwinGroup>, n: nat)
    requires n <= |groups| && GroupsInRange(rows, groups) && Apart(groups)
    requires forall g :: 0 <= g < |groups| ==> Rising(groups[g].members) && WholeClass(text, rows, groups[g].members)
    ensures SoFar(text, rows, FillGroups(rows, groups, n), Members(groups, n))
  {
    if n == 0 {
      assert Members(groups, n) == {};
    } else {
      GroupsVisited(text, rows, groups, n - 1);
      var now, members := FillGroups(rows, groups, n - 1), groups[n - 1].members;
      assert InRange(rows, members) && InRange(now, members);
      assert members[..|members|] == members;
      assert Members(groups, n) == Members(groups, n - 1) + Elements(members);
      hide SoFar, FillMembers, WholeClass, Rising;
      MembersVisited(text, rows, now, Members(groups, n - 1), members, |members|);
    }
  }

  /** The first pass dates and links exactly what is said above. */
  lemma TwinsAreFilled(text: Text, rows: seq<Row>)
    ensures TwinPass(text, rows, FromTwins(text, rows))
  {
    var groups := TwinGroups(text, rows, |rows|);
    GroupsAreInRange(text, rows);
    TwinsGrouped(text, rows);
    assert FromTwins(text, rows) == FillGroups(rows, groups, |groups|);
    hide TwinGroups, FillGroups, FromTwins, IsTwinCandidate, TwinKey;
    forall g | 0 <= g < |groups| ensures WholeClass(text, rows, groups[g].members) {}
    GroupsVisited(text, rows, groups, |groups|);
    AllVisited(text, rows, FromTwins(text, rows), Members(groups, |groups|));
  }

  lemma AllVisited(text: Text, rows: seq<Row>, now: seq<Row>, done: set<nat>)
    requires SoFar(text, rows, now, done)
    requires forall i: nat :: i < |rows| && IsTwinCandidate(rows[i]) ==> i in done
    ensures TwinPass(text, rows, now)
  {
    forall i: nat, j: nat | TakesFrom(text, rows, now, i, j) ensures i in done {
      SourceIsTwin(text, rows, now, i, j);
    }
    forall i: nat, x: nat, e: nat | Asks(text, rows, now, i, x, e) ensures i in done {
      AskersAreTwins(text, rows, now, i, x, e);
    }
    hide TakesFrom, Asks, Closed, IsTwinCandidate;
    forall x: nat | x < |rows|
      ensures InferDates.SameFacts(rows[x], now[x]) && TwinDated(text, rows, now, x) && TwinLinked(text, rows, now, x)
    {
      assert LinkedAmong(text, rows, now, done, x);
      LinkedAmongAll(text, rows, now, done, x);
    }
  }

  lemma LinkedAmongAll(text: Text, rows: seq<Row>, now: seq<Row>, done: set<nat>, x: nat)
    requires |now| == |rows| && x < |rows| && LinkedAmong(text, rows, now, done, x)
    requires forall i: nat, x: nat, e: nat :: Asks(text, rows, now, i, x, e) ==> i in done
    ensures TwinLinked(text, rows, now, x)
  {
    hide Asks, Linked;
    if !(now[x].relation == rows[x].relation &&
         (rows[x].relation.Some? || forall i: nat, e: nat :: i in done ==> !Asks(text, rows, now, i, x, e))) {
      var i: nat, e: nat :| FirstAmong(text, rows, now, done, i, x, e) && Linked(rows, now[x], e);
      assert FirstAsks(text, rows, now, i, x, e);
    }
  }
}
