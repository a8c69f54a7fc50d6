// What the budget suggestions propose, envelope by envelope.
module SuggestMeaning {
  import opened Sequences
  import opened BudgetSuggest

  // ---- topping up ---------------------------------------------------------------------------------

  function InTheRed(): SuggestEnvelope -> bool { (e: SuggestEnvelope) => !e.archived && e.available < 0 }

  function Missing(): SuggestEnvelope -> int { (e: SuggestEnvelope) => 0 - e.available }

  /** What all active overdrawn envelopes are short of. */
  function Owed(envelopes: seq<SuggestEnvelope>): Money { Sum(Filter(envelopes, InTheRed()), Missing()) }

  function Proposing(given: SuggestEnvelope -> int): SuggestEnvelope -> SuggestItem {
    (e: SuggestEnvelope) => SuggestItem(e.id, e.allocation, e.available, given(e))
  }

  function Something(): SuggestItem -> bool { (i: SuggestItem) => i.proposedDelta > 0 }

  /** The larger fraction comes first, equal ones by id. */
  predicate LargerPart(a: int, aId: Id, b: int, bId: Id) { a > b || (a == b && aId < bId) }

  /** Each gets its exact part of the pool, rounded down or up, and the larger fractions are rounded up first. */
  ghost predicate Apportioned(red: seq<SuggestEnvelope>, pool: nat, owed: nat, given: SuggestEnvelope -> int)
    requires owed > 0
  {
    && Sum(red, given) == pool
    && (forall e :: e in red ==>
      var exact := pool * Missing()(e);
      given(e) == exact / owed || (given(e) == exact / owed + 1 && exact % owed > 0))
    && (forall up, down :: up in red && down in red && given(up) > pool * Missing()(up) / owed ==>
      given(down) > pool * Missing()(down) / owed ||
      LargerPart(pool * Missing()(up) % owed, up.id, pool * Missing()(down) % owed, down.id))
  }

  /** The active envelopes in the red, in their order: up to zero if the pool allows, else their part of it. */
  ghost predicate ToppedUp(envelopes: seq<SuggestEnvelope>, pool: nat, items: seq<SuggestItem>) {
    var red, owed := Filter(envelopes, InTheRed()), Owed(envelopes);
    if owed <= pool then items == Map(red, Proposing(Missing()))
    else exists given :: Apportioned(red, pool, owed, given) && items == Filter(Map(red, Proposing(given)), Something())
  }

  lemma {:induction false} OwedIsDeficits(red: seq<SuggestEnvelope>)
    requires forall e :: e in red ==> e.available < 0
    ensures Sum(red, Missing()) == Total(Map(red, Deficit()))
  {
    if red != [] {
      var n := |red| - 1;
      LastSplit(red);
      OwedIsDeficits(red[..n]);
      assert Map(red, Deficit()) == Map(red[..n], Deficit()) + [Deficit()(red[n])];
      SumOneMore(Map(red[..n], Deficit()), Deficit()(red[n]), WeightOf());
      assert red[n] in red;
    }
  }

  function Given(share: Weighted -> int): SuggestEnvelope -> int { (e: SuggestEnvelope) => share(Deficit()(e)) }

  lemma RedIsNegative(envelopes: seq<SuggestEnvelope>)
    ensures Filter(envelopes, IsNegative()) == Filter(envelopes, InTheRed())
    ensures forall e :: e in Filter(envelopes, InTheRed()) ==> e.available < 0
    ensures Owed(envelopes) == Total(Deficits(envelopes))
  {
    FilterAgrees(envelopes, IsNegative(), InTheRed());
    var red := Filter(envelopes, InTheRed());
    forall e | e in red ensures e.available < 0 { FilterMember(envelopes, InTheRed(), e); }
    hide Filter;
    OwedIsDeficits(red);
  }

  lemma SharesApportion(red: seq<SuggestEnvelope>, deficits: seq<Weighted>, pool: nat, owed: nat)
    requires deficits == Map(red, Deficit()) && owed == Total(deficits) > pool && DistinctIds(deficits)
    requires forall e :: e in red ==> e.available < 0
    ensures owed > 0 && Apportioned(red, pool, owed, Given(Share(deficits, pool, owed)))
  {
    var share := Share(deficits, pool, owed);
    var given := Given(share);
    HandsOutAll(deficits, pool, owed);
    SumMap(red, Deficit(), share, given);
    hide Share, Total, Sum, DistinctIds;
    forall e | e in red ensures Deficit()(e) in deficits && Deficit()(e).weight == Missing()(e) &&
      Deficit()(e).id == e.id {
      var i :| 0 <= i < |red| && red[i] == e;
      assert deficits[i] == Deficit()(e);
    }
    forall e | e in red
      ensures var exact := pool * Missing()(e);
        given(e) == exact / owed || (given(e) == exact / owed + 1 && exact % owed > 0)
    {
      SharesAreFair(deficits, pool, owed, Deficit()(e));
    }
    forall up, down | up in red && down in red && given(up) > pool * Missing()(up) / owed
      ensures given(down) > pool * Missing()(down) / owed ||
        LargerPart(pool * Missing()(up) % owed, up.id, pool * Missing()(down) % owed, down.id)
    {
      if given(down) == pool * Missing()(down) / owed {
        LargerFractionsFirst(deficits, pool, owed, Deficit()(up), Deficit()(down));
      }
    }
  }

  lemma AllPositive(red: seq<SuggestEnvelope>)
    requires forall e :: e in red ==> e.available < 0
    ensures Filter(Map(red, Proposing(Missing())), IsPositive()) == Map(red, Proposing(Missing()))
  {
    var items := Map(red, Proposing(Missing()));
    forall i | i in items ensures IsPositive()(i) {
      var k :| 0 <= k < |items| && items[k] == i;
      assert red[k] in red;
    }
    FilterAll(items, IsPositive());
  }

  lemma ProposalsAgree(red: seq<SuggestEnvelope>, delta: Weighted -> int, given: SuggestEnvelope -> int)
    requires forall e :: e in red ==> given(e) == delta(Deficit()(e))
    ensures Map(red, ProposedFor(delta)) == Map(red, Proposing(given))
  {
    ItemsAgree(red, ProposedFor(delta), Proposing(given));
  }

  /** Topping up proposes just that. */
  lemma TopUpMeans(envelopes: seq<SuggestEnvelope>, pool: nat)
    requires DistinctEnvelopes(envelopes)
    ensures ToppedUp(envelopes, pool,
      Filter(Map(Filter(envelopes, IsNegative()), ProposedFor(TopUp(envelopes, pool))), IsPositive()))
  {
    var red, deficits := Filter(envelopes, InTheRed()), Deficits(envelopes);
    var owed, delta := Total(deficits), TopUp(envelopes, pool);
    RedIsNegative(envelopes);
    DeficitsAreDistinct(envelopes);
    hide Filter, Total, Share, DistinctIds, Owed, Sum;
    if owed <= pool {
      ProposalsAgree(red, delta, Missing());
      AllPositive(red);
    } else {
      SharesApportion(red, deficits, pool, owed);
      var given := Given(Share(deficits, pool, owed));
      ProposalsAgree(red, delta, given);
      FilterAgrees(Map(red, Proposing(given)), IsPositive(), Something());
    }
  }

  // ---- presets ------------------------------------------------------------------------------------

  predicate Active(envelopes: seq<SuggestEnvelope>, id: Id, e: SuggestEnvelope) {
    e in envelopes && e.id == id && !e.archived
  }

  lemma {:induction false} ByIdFinds(envelopes: seq<SuggestEnvelope>, e: SuggestEnvelope)
    requires DistinctEnvelopes(envelopes) && e in envelopes
    ensures e.id in ById(envelopes) && ById(envelopes)[e.id] == e
  {
    var n := |envelopes| - 1;
    LastSplit(envelopes);
    if e in envelopes[..n] {
      ByIdFinds(envelopes[..n], e);
      var i :| 0 <= i < n && envelopes[i] == e;
    }
  }

  /**
   * One more entry of a preset: for an active envelope it proposes its amount, or what is missing to reach
   * it; without one it is skipped; nothing else changes.
   */
  lemma PresetMeans(envelopes: seq<SuggestEnvelope>, mode: PresetMode, amounts: seq<PresetEntry>, entry: PresetEntry)
    requires DistinctEnvelopes(envelopes)
    ensures PresetItems(ById(envelopes), mode, []) == [] && Filter([], IsMissing(ById(envelopes))) == []
    ensures var byId := ById(envelopes);
      var items, more := PresetItems(byId, mode, amounts), PresetItems(byId, mode, amounts + [entry]);
      var skipped, skips := |Filter(amounts, IsMissing(byId))|, |Filter(amounts + [entry], IsMissing(byId))|;
      && (forall e :: Active(envelopes, entry.envelopeId, e) ==>
        var delta := if mode == AddToAllocation then entry.amount else entry.amount - e.allocation;
        skips == skipped &&
        more == items + if delta > 0 then [SuggestItem(e.id, e.allocation, e.available, delta)] else [])
      && ((forall e :: !Active(envelopes, entry.envelopeId, e)) ==> skips == skipped + 1 && more == items)
  {
    var byId := ById(envelopes);
    assert (amounts + [entry])[..|amounts|] == amounts;
    FilterOneMore(amounts, entry, IsMissing(byId));
    ByIdHolds(envelopes);
    forall e | Active(envelopes, entry.envelopeId, e) ensures e.id in byId && byId[e.id] == e {
      ByIdFinds(envelopes, e);
    }
    if entry.envelopeId in byId && !byId[entry.envelopeId].archived {
      assert Active(envelopes, entry.envelopeId, byId[entry.envelopeId]);
    }
    hide Filter, ById;
  }
}
