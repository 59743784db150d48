/** Stage A (stage_cost_enrichment.py) as the operator that keeps the state. */
module CostEnrichmentStage {
  import opened Wrappers
  import opened Listings
  import opened PricingEngine
  import opened Models
  import opened CostAggregation
  import opened CostEnrichment
  import opened CostHistory
  import opened Strategies
  import opened Structural

  /** The aggregate as it leaves Stage A: commission, bookings and occupancy are resolved later. */
  function Enrich(a: ApartmentId, g: Aggregation, profile: Profile, strategy: Strategy, now: Millis): CostAggregate {
    CostAggregate(
      a, g.fixedCost, g.variableCost, g.perBookingCost, g.totalMonthlyCost, g.availableDays, g.linesCount,
      g.periodStart, g.periodEnd, strategy.targetMargin, strategy.discount, strategy.version, now,
      AttributeFactor(profile), 0.15, TotalRevenue, g.percentageCosts, g.netted, 0, 0, 0.0, g.pending)
  }

  /** cost is the aggregate of these lines, read in some order. */
  ghost predicate IsEnrichmentOf(cost: CostAggregate, a: ApartmentId, lines: Lines, profile: Profile,
                                 strategy: Strategy, now: Millis)
  {
    exists keys :: ListsKeys(keys, lines) && EnrichedFrom(cost, a, keys, lines, profile, strategy, now)
  }

  ghost predicate EnrichedFrom(cost: CostAggregate, a: ApartmentId, keys: seq<string>, lines: Lines,
                               profile: Profile, strategy: Strategy, now: Millis)
    requires ListsKeys(keys, lines)
  {
    && AggregateCost(Values(keys, lines)).Some?
    && cost == Enrich(a, AggregateCost(Values(keys, lines)).value, profile, strategy, now)
  }

  class CostEnrichmentFunction {
    var costLines: Lines
    var profiles: map<ApartmentId, Profile>
    var strategies: map<ApartmentId, Strategy>

    constructor ()
      ensures costLines == map[] && profiles == map[] && strategies == map[]
    {
      costLines, profiles, strategies := map[], map[], map[];
    }

    /** Removes the lines of every period but the two latest, one by one. */
    method PruneLines()
      modifies `costLines
      ensures costLines == Prune(old(costLines))
    {
      var current := costLines;
      var retained := RetainedPeriodEnds(Ends(current), PERIODS_KEPT);
      var todo := current.Keys;
      while todo != {}
        invariant todo <= current.Keys
        invariant forall id :: id in costLines ==> id in current && costLines[id] == current[id]
        invariant forall id :: id in current ==> (id in costLines <==> id in todo || current[id].periodEnd in retained)
        decreases todo
      {
        var id :| id in todo;
        if current[id].periodEnd !in retained {
          costLines := costLines - {id};
        }
        todo := todo - {id};
      }
    }

    /** A payment line: upsert, prune, aggregate, and emit once profile and strategy are known. */
    method ProcessElement(value: PaymentLine, now: Millis) returns (emitted: Option<CostAggregate>)
      modifies `costLines
      ensures costLines == Upsert(old(costLines), value)
      ensures emitted.Some? <==> value.apartmentId in profiles && value.apartmentId in strategies
      ensures emitted.Some? ==>
                IsEnrichmentOf(emitted.value, value.apartmentId, costLines, profiles[value.apartmentId],
                               strategies[value.apartmentId], now)
    {
      costLines := costLines[value.eventId := value];
      ghost var put := costLines;
      PruneLines();
      assert value.eventId in put;
      ghost var latest := PruneCovers(put);
      var keys := IterationOrder(costLines);
      assert latest in keys;
      var aggregation := AggregateCost(Values(keys, costLines));
      if aggregation.None? || value.apartmentId !in profiles || value.apartmentId !in strategies {
        return None;
      }
      emitted := Some(Enrich(value.apartmentId, aggregation.value, profiles[value.apartmentId],
                             strategies[value.apartmentId], now));
      assert EnrichedFrom(emitted.value, value.apartmentId, keys, costLines, profiles[value.apartmentId],
                          strategies[value.apartmentId], now);
    }

    /** A profile row replaces the apartment's profile. */
    method ProcessSegmentRow(a: ApartmentId, profile: Profile)
      modifies `profiles
      ensures profiles == old(profiles)[a := profile]
    {
      profiles := profiles[a := profile];
    }

    /** A strategy row is kept only if its version is higher than the stored one. */
    method ProcessStrategyRow(row: StrategyRow)
      modifies `strategies
      ensures strategies == Deliver(old(strategies), row)
    {
      if row.apartmentId !in strategies || row.strategy.version > strategies[row.apartmentId].version {
        strategies := strategies[row.apartmentId := row.strategy];
      }
    }
  }

  /** Stage A cannot be told from one that forgets nothing: it may emit an aggregate after these lines
      if and only if the full history of them may. */
  lemma EmittedFromFullHistory(received: seq<PaymentLine>, cost: CostAggregate,
                               a: ApartmentId, profile: Profile, strategy: Strategy, now: Millis)
    requires Covers(Pruned(received), Full(received))
    ensures IsEnrichmentOf(cost, a, Pruned(received), profile, strategy, now) <==>
            IsEnrichmentOf(cost, a, Full(received), profile, strategy, now)
  {
    if IsEnrichmentOf(cost, a, Pruned(received), profile, strategy, now) {
      EnrichmentMoves(received, Pruned(received), Full(received), cost, a, profile, strategy, now);
    }
    if IsEnrichmentOf(cost, a, Full(received), profile, strategy, now) {
      EnrichmentMoves(received, Full(received), Pruned(received), cost, a, profile, strategy, now);
    }
  }

  lemma EnrichmentMoves(received: seq<PaymentLine>, from: Lines, to: Lines, cost: CostAggregate,
                        a: ApartmentId, profile: Profile, strategy: Strategy, now: Millis)
    requires Covers(Pruned(received), Full(received))
    requires (from == Pruned(received) && to == Full(received)) || (from == Full(received) && to == Pruned(received))
    requires IsEnrichmentOf(cost, a, from, profile, strategy, now)
    ensures IsEnrichmentOf(cost, a, to, profile, strategy, now)
  {
    var keys :| ListsKeys(keys, from) && EnrichedFrom(cost, a, keys, from, profile, strategy, now);
    var aggregation := AggregateCost(Values(keys, from));
    AggregateOfPrunedIsAggregateOfFull(received, aggregation);
    assert IsAggregateOf(aggregation, from);
    var keys' :| ListsKeys(keys', to) && aggregation == AggregateCost(Values(keys', to));
    assert EnrichedFrom(cost, a, keys', to, profile, strategy, now);
  }
}
