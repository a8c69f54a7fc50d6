// Deletes of groups in a replay, and what the replay's rows may mention meanwhile.
//
// The replay finds only those envelopes of a group that the history itself created. The others are
// gone from the snapshot, and nothing in the replay mentions them unless an operation named them.
module ReplayGroups {
  import opened Sequences
  import opened Tables
  import opened TableReplay
  import opened Ledger
  import opened WellFormedLedger
  import opened ReplayPast
  import opened ReplayRel
  import opened ReplayDictionaries

  /** Every envelope, place and category a row of the replay mentions is final, or was named by the history. */
  predicate Mentioned(past: Past, s: Ledger, r: Ledger) {
    && (forall x :: x in r.transactions ==> RowMentioned(past, s, x))
    && (forall a :: a in r.accounts ==> AccountMentioned(past, s, a))
  }

  predicate RowMentioned(past: Past, s: Ledger, x: Transaction) {
    RowEnvelopes(x) <= EnvelopeIds(s) + past.envelopes && RowMentions(past, s.transactions, x)
  }

  predicate AccountMentioned(past: Past, s: Ledger, a: Account) {
    Some1(a.automaticEnvelopeId) <= EnvelopeIds(s) + past.envelopes
  }

  lemma ResolvedEnvelopes(t: Transaction, accounts: set<Id>, envelopes: set<Id>)
    requires TxnResolved(t, accounts, envelopes)
    ensures RowEnvelopes(t) <= envelopes
  {
  }

  lemma MentionedFirst(l: Ledger, s: Ledger)
    requires WellFormed(s)
    ensures Mentioned(NewPast(l), s, s)
  {
    hide Keys, RowEnvelopes;
    forall x | x in s.transactions ensures RowMentioned(NewPast(l), s, x) {
      ResolvedEnvelopes(x, AccountIds(s), EnvelopeIds(s));
      assert SamePlaceAs(s.transactions, x) && SameCategoryAs(s.transactions, x) && SameItemsAs(s.transactions, x);
    }
  }

  // ---- which envelopes the replay finds -----------------------------------------------------------

  /** The replay finds some of the group's envelopes, namely those it has, and the end has none of them. */
  predicate FindsPart(s: Ledger, r: Ledger, found: set<Id>, all: set<Id>) {
    && found <= all && all !! EnvelopeIds(s)
    && (forall e :: e in r.envelopes && e.id in all ==> e.id in found)
  }

  lemma GroupMembers(l: Ledger, groupId: Id)
    ensures forall e :: e in l.envelopes && e.groupId == groupId ==> e.id in EnvelopesOfGroup(l, groupId)
    ensures forall k :: k in EnvelopesOfGroup(l, groupId) ==>
      exists e :: e in l.envelopes && e.id == k && e.groupId == groupId
    ensures EnvelopesOfGroup(l, groupId) <= EnvelopeIds(l)
  {
    forall e | e in l.envelopes && e.groupId == groupId ensures e.id in EnvelopesOfGroup(l, groupId) {
      var i :| 0 <= i < |l.envelopes| && l.envelopes[i] == e;
      assert l.envelopes[i].groupId == groupId;
    }
  }

  /** An envelope of the replay that is in the group is one of the group in the clean run. */
  lemma FoundInGroup(
    seen: set<Id>, groups: set<Id>, s: seq<Envelope>, o: seq<Envelope>, r: seq<Envelope>, id: Id, e: Envelope)
    requires EnvelopeRel(seen, s, o, r) && id !in groups && forall a :: a in s ==> a.groupId in groups
    requires e in r && e.groupId == id
    ensures exists b :: b in o && b.id == e.id && b.groupId == id
  {
    var j :| 0 <= j < |r| && r[j] == e;
    if j < |s| {
      var a := s[j];
      assert a in s && RowRel(a, o, e, EnvelopeId, EnvelopeBetween);
      KeyIn(o, EnvelopeId, EnvelopeId(a));
      if HasKey(o, EnvelopeId, EnvelopeId(a)) {
        var b :| b in o && EnvelopeId(b) == EnvelopeId(a);
        assert EnvelopeBetween(a, b, e);
      }
    } else {
      var tail := r[|s|..];
      assert tail[j - |s|] == e && e in tail;
    }
  }

  lemma HeadIds(seen: set<Id>, s: seq<Envelope>, o: seq<Envelope>, r: seq<Envelope>)
    requires EnvelopeRel(seen, s, o, r)
    ensures forall j :: 0 <= j < |s| ==> r[j].id in Keys(s, EnvelopeId)
  {
    forall j | 0 <= j < |s| ensures r[j].id in Keys(s, EnvelopeId) {
      assert RowRel(s[j], o, r[j], EnvelopeId, EnvelopeBetween) && s[j] in s;
    }
  }

  /** An envelope of the replay that the end does not have is one of the clean run. */
  lemma NovelEnvelope(seen: set<Id>, s: seq<Envelope>, o: seq<Envelope>, r: seq<Envelope>, e: Envelope)
    requires EnvelopeRel(seen, s, o, r) && e in r && e.id !in Keys(s, EnvelopeId)
    ensures e in o
  {
    HeadIds(seen, s, o, r);
    hide Keys;
    var j :| 0 <= j < |r| && r[j] == e;
    var tail := r[|s|..];
    assert j >= |s| && tail[j - |s|] == e && e in tail;
  }

  lemma GroupFinds(base: Known, known: Known, s: Ledger, o: Ledger, r: Ledger, id: Id)
    requires Point(base, known, s, o, r) && Future(s, ApplyOp(o, GroupDelete(id)), known) && id in known.groups
    ensures FindsPart(s, r, EnvelopesOfGroup(r, id), EnvelopesOfGroup(o, id)) && id !in GroupIds(s)
  {
    hide *;
    GroupEnds(base, known, s, o, r, id);
    FoundPart(Both(base, KnownOf(s)).envelopes, s, o, r, id, EnvelopesOfGroup(r, id), EnvelopesOfGroup(o, id));
  }

  /** At the end the group and its envelopes are gone. */
  lemma GroupEnds(base: Known, known: Known, s: Ledger, o: Ledger, r: Ledger, id: Id)
    requires Point(base, known, s, o, r) && Future(s, ApplyOp(o, GroupDelete(id)), known) && id in known.groups
    ensures EnvelopesOfGroup(o, id) !! EnvelopeIds(s) && id !in GroupIds(s)
    ensures EnvelopeRel(Both(base, KnownOf(s)).envelopes, s.envelopes, o.envelopes, r.envelopes)
    ensures Distinct(o.envelopes, EnvelopeId) && forall e :: e in s.envelopes ==> e.groupId in GroupIds(s)
  {
    var all, after := EnvelopesOfGroup(o, id), ApplyOp(o, GroupDelete(id));
    GroupMembers(o, id);
    GroupGone(o, id);
    GroupEnvelopesKnown(s);
    hide TableRel, Keys, Distinct, Resolved, ApplyOp, EnvelopesOfGroup;
    assert Survivors(known.envelopes, EnvelopeIds(s), EnvelopeIds(after));
    assert Survivors(known.groups, GroupIds(s), GroupIds(after));
  }

  lemma GroupGone(l: Ledger, id: Id)
    requires DistinctIds(l)
    ensures var after := ApplyOp(l, GroupDelete(id));
      EnvelopeIds(after) == EnvelopeIds(l) - EnvelopesOfGroup(l, id) && id !in GroupIds(after)
  {
    hide Keys, Distinct, DeleteEnvelopes, EnvelopesOfGroup;
    DeleteEnvelopesIds(l, EnvelopesOfGroup(l, id));
    DroppedKey(DeleteEnvelopes(l, EnvelopesOfGroup(l, id)).groups, GroupId, GroupOtherThan(id), id);
  }

  lemma FoundPart(seen: set<Id>, s: Ledger, o: Ledger, r: Ledger, id: Id, found: set<Id>, all: set<Id>)
    requires EnvelopeRel(seen, s.envelopes, o.envelopes, r.envelopes) && id !in GroupIds(s)
    requires forall e :: e in s.envelopes ==> e.groupId in GroupIds(s)
    requires found == EnvelopesOfGroup(r, id) && all == EnvelopesOfGroup(o, id) && all !! EnvelopeIds(s)
    requires Distinct(o.envelopes, EnvelopeId)
    ensures FindsPart(s, r, found, all)
  {
    GroupMembers(o, id);
    GroupMembers(r, id);
    hide TableRel, Keys, EnvelopesOfGroup;
    forall k | k in found ensures k in all {
      var e :| e in r.envelopes && e.id == k && e.groupId == id;
      FoundInGroup(seen, GroupIds(s), s.envelopes, o.envelopes, r.envelopes, id, e);
    }
    forall e | e in r.envelopes && e.id in all ensures e.id in found {
      NovelEnvelope(seen, s.envelopes, o.envelopes, r.envelopes, e);
      var b :| b in o.envelopes && b.id == e.id && b.groupId == id;
      DistinctUnique(o.envelopes, EnvelopeId, e, b);
    }
  }

  lemma GroupEnvelopesKnown(s: Ledger)
    requires WellFormed(s)
    ensures forall e :: e in s.envelopes ==> e.groupId in GroupIds(s)
  {
  }

  // ---- removing what was found removes all --------------------------------------------------------

  lemma SameRemoval(r: Ledger, found: set<Id>, all: set<Id>)
    requires found <= all
    requires forall e :: e in r.envelopes && e.id in all ==> e.id in found
    requires forall a :: a in r.allocations && a.envelopeId in all ==> a.envelopeId in found
    requires forall a :: a in r.accounts ==> Some1(a.automaticEnvelopeId) * all <= found
    requires forall x :: x in r.transactions ==> RowEnvelopes(x) * all <= found
    ensures DeleteEnvelopes(r, found) == DeleteEnvelopes(r, all)
  {
    FilterAgrees(r.envelopes, EnvelopeOutside(found), EnvelopeOutside(all));
    FilterAgrees(r.allocations, AllocationOutside(found), AllocationOutside(all));
    forall i | 0 <= i < |r.transactions| ensures ClearTxn(found)(r.transactions[i]) ==
      ClearTxn(all)(r.transactions[i]) {
      assert r.transactions[i] in r.transactions;
      SameClearing(r.transactions[i], found, all);
    }
    forall i | 0 <= i < |r.accounts| ensures ClearAccount(found)(r.accounts[i]) == ClearAccount(all)(r.accounts[i]) {
      assert r.accounts[i] in r.accounts;
    }
    hide ClearTxn, ClearAccount, RowEnvelopes, Filter;
    assert Map(r.transactions, ClearTxn(found)) == Map(r.transactions, ClearTxn(all));
    assert Map(r.accounts, ClearAccount(found)) == Map(r.accounts, ClearAccount(all));
  }

  lemma SameClearing(t: Transaction, found: set<Id>, all: set<Id>)
    requires found <= all && RowEnvelopes(t) * all <= found
    ensures ClearTxn(found)(t) == ClearTxn(all)(t)
  {
    forall i | i in t.items ensures ItemOutside(found)(i) == ItemOutside(all)(i) {
      assert i.envelopeId in ItemEnvelopes(t.items);
    }
    FilterAgrees(t.items, ItemOutside(found), ItemOutside(all));
    assert forall k :: k in RowEnvelopes(t) ==> (k in all <==> k in found);
    hide Filter;
  }

  /** An id of the group that was not there at first, and is not at the end, belongs to an envelope of the replay. */
  lemma NovelIsFound(base: Known, s: Ledger, o: Ledger, r: Ledger, id: Id, k: Id)
    requires Rel(Both(base, KnownOf(s)), s, o, r) && FindsPart(s, r, EnvelopesOfGroup(r, id), EnvelopesOfGroup(o, id))
    requires k in EnvelopesOfGroup(o, id) && k !in base.envelopes
    ensures k in EnvelopesOfGroup(r, id)
  {
    var seen := Both(base, KnownOf(s)).envelopes;
    GroupMembers(o, id);
    assert EnvelopeRel(seen, s.envelopes, o.envelopes, r.envelopes) && seen == base.envelopes + EnvelopeIds(s);
    hide Rel, TableRel, Keys, EnvelopesOfGroup;
    RelHasKey(s.envelopes, o.envelopes, r.envelopes, EnvelopeId, Outside(seen), EnvelopeBetween, k);
    KeyIn(o.envelopes, EnvelopeId, k);
    KeyIn(r.envelopes, EnvelopeId, k);
    var b :| b in o.envelopes && b.id == k;
    assert EnvelopeId(b) == k;
    var e :| e in r.envelopes && EnvelopeId(e) == k;
  }

  /** An allocation of the replay is one of the end, or of an envelope the history created. */
  lemma AllocationOrigin(
    seen: set<Id>, s: seq<Allocation>, o: seq<Allocation>, r: seq<Allocation>, envelopes: set<Id>, a: Allocation)
    requires AllocationRel(seen, s, o, r) && a in r
    requires forall x :: x in s ==> x.envelopeId in envelopes
    ensures a.envelopeId in envelopes || a.envelopeId !in seen
  {
    var j :| 0 <= j < |r| && r[j] == a;
    if j < |s| {
      assert RowRel(s[j], o, a, AllocationKey, AllocationBetween) && s[j] in s;
    } else {
      var tail := r[|s|..];
      assert tail[j - |s|] == a && a in tail;
      FilterMember(o, NovelRow(AllocationKey, OutsideEnvelopes(seen)), a);
      assert OutsideEnvelopes(seen)(AllocationKey(a));
    }
  }

  lemma AllocationsOf(base: Known, s: Ledger, o: Ledger, r: Ledger)
    requires Rel(Both(base, KnownOf(s)), s, o, r) && WellFormed(s)
    ensures AllocationRel(base.envelopes + EnvelopeIds(s), s.allocations, o.allocations, r.allocations)
    ensures forall x :: x in s.allocations ==> x.envelopeId in EnvelopeIds(s)
  {
    hide TableRel, Keys;
  }

  lemma NotInAll(k: Id, a: set<Id>, b: set<Id>, c: set<Id>)
    requires a * b * c == {} && k in a && k in b
    ensures k !in c
  {
    assert k in c ==> k in a * b * c;
  }

  lemma GroupNamed(base: Known, past: Past, s: Ledger, o: Ledger, r: Ledger, id: Id, k: Id)
    requires Rel(Both(base, KnownOf(s)), s, o, r) && past.first == base
    requires FindsPart(s, r, EnvelopesOfGroup(r, id), EnvelopesOfGroup(o, id))
    requires EnvelopesOfGroup(o, id) * past.envelopes * past.first.envelopes == {}
    requires k in EnvelopesOfGroup(o, id) && (k in EnvelopeIds(s) + past.envelopes || k !in base.envelopes)
    ensures k in EnvelopesOfGroup(r, id)
  {
    assert k !in EnvelopeIds(s);
    if k in past.envelopes { NotInAll(k, EnvelopesOfGroup(o, id), past.envelopes, past.first.envelopes); }
    hide *;
    NovelIsFound(base, s, o, r, id, k);
  }

  /** Clearing what the replay finds of the group is clearing all of it. */
  lemma GroupClears(base: Known, past: Past, s: Ledger, o: Ledger, r: Ledger, id: Id)
    requires Rel(Both(base, KnownOf(s)), s, o, r) && WellFormed(s) && Mentioned(past, s, r) && past.first == base
    requires FindsPart(s, r, EnvelopesOfGroup(r, id), EnvelopesOfGroup(o, id))
    requires EnvelopesOfGroup(o, id) * past.envelopes * past.first.envelopes == {}
    ensures DeleteEnvelopes(r, EnvelopesOfGroup(r, id)) == DeleteEnvelopes(r, EnvelopesOfGroup(o, id))
  {
    hide Rel, Keys, RowEnvelopes, RowMentions, EnvelopesOfGroup, WellFormed, DeleteEnvelopes;
    var found, all := EnvelopesOfGroup(r, id), EnvelopesOfGroup(o, id);
    forall k | k in all && (k in EnvelopeIds(s) + past.envelopes || k !in base.envelopes) ensures k in found {
      GroupNamed(base, past, s, o, r, id, k);
    }
    AllocationsOf(base, s, o, r);
    forall a | a in r.allocations && a.envelopeId in all ensures a.envelopeId in found {
      AllocationOrigin(base.envelopes + EnvelopeIds(s), s.allocations, o.allocations, r.allocations, EnvelopeIds(s), a);
    }
    forall x | x in r.transactions ensures RowEnvelopes(x) * all <= found { assert RowMentioned(past, s, x); }
    forall a | a in r.accounts ensures Some1(a.automaticEnvelopeId) * all <= found
    { assert AccountMentioned(past, s, a); }
    SameRemoval(r, found, all);
  }

  lemma ClearedStep(seen: Known, s: Ledger, o: Ledger, r: Ledger, ids: set<Id>)
    requires Rel(seen, s, o, r) && WellFormed(s) && ids !! EnvelopeIds(s)
    ensures Rel(seen, s, DeleteEnvelopes(o, ids), DeleteEnvelopes(r, ids))
  {
    DropKeyStep(s.envelopes, o.envelopes, r.envelopes, EnvelopeId, Outside(seen.envelopes), EnvelopeBetween,
      EnvelopeOutside(ids));
    DropKeyStep(s.allocations, o.allocations, r.allocations, AllocationKey, OutsideEnvelopes(seen.envelopes),
      AllocationBetween, AllocationOutside(ids));
    ClearAccountStep(seen.accounts, s.accounts, o.accounts, r.accounts, EnvelopeIds(s), ids);
    ClearTxnStep(seen.transactions, s.transactions, o.transactions, r.transactions, AccountIds(s), EnvelopeIds(s), ids);
  }

  lemma GroupDropStep(seen: Known, s: Ledger, o: Ledger, r: Ledger, id: Id)
    requires Rel(seen, s, o, r) && id !in GroupIds(s)
    ensures Rel(seen, s, o.(groups := Filter(o.groups, GroupOtherThan(id))),
      r.(groups := Filter(r.groups, GroupOtherThan(id))))
  {
    hide TableRel, Filter;
    DropKeyStep(s.groups, o.groups, r.groups, GroupId, Outside(seen.groups), GroupBetween, GroupOtherThan(id));
  }

  lemma GroupDeleteIs(l: Ledger, id: Id)
    ensures var next := DeleteEnvelopes(l, EnvelopesOfGroup(l, id));
      ApplyOp(l, GroupDelete(id)) == next.(groups := Filter(next.groups, GroupOtherThan(id)))
  {
    hide DeleteEnvelopes, Filter;
  }

  lemma GroupDeleteFacts(base: Known, known: Known, past: Past, s: Ledger, o: Ledger, r: Ledger, id: Id)
    requires Point(base, known, s, o, r) && CausalOp(o, known, GroupDelete(id)) && Lasting(o, past, GroupDelete(id))
    ensures id in known.groups && Rel(Both(base, KnownOf(s)), s, o, r) && WellFormed(s)
    ensures EnvelopesOfGroup(o, id) * past.envelopes * past.first.envelopes == {}
  {
    hide Rel, WellFormed, Future, Within, EnvelopesOfGroup, KnownOf, Track, TrackPlaces, TrackCategories, TrackItems;
  }

  lemma GroupDeleteStep(base: Known, known: Known, past: Past, s: Ledger, o: Ledger, r: Ledger, id: Id)
    requires Point(base, known, s, o, r) && CausalOp(o, known, GroupDelete(id)) && Lasting(o, past, GroupDelete(id))
    requires Future(s, ApplyOp(o, GroupDelete(id)), known) && Mentioned(past, s, r) && past.first == base
    ensures Rel(Both(base, KnownOf(s)), s, ApplyOp(o, GroupDelete(id)), ApplyOp(r, GroupDelete(id)))
  {
    hide *;
    var seen, all := Both(base, KnownOf(s)), EnvelopesOfGroup(o, id);
    GroupDeleteFacts(base, known, past, s, o, r, id);
    GroupFinds(base, known, s, o, r, id);
    GroupEnds(base, known, s, o, r, id);
    GroupClears(base, past, s, o, r, id);
    GroupDeleteIs(o, id);
    GroupDeleteIs(r, id);
    ClearedStep(seen, s, o, r, all);
    GroupDropStep(seen, s, DeleteEnvelopes(o, all), DeleteEnvelopes(r, all), id);
  }
}
