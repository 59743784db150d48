/** Stage B with the repository's own pricing: the join's laws for `_build_price_decision`. */
module PricedSegment {
  import opened Wrappers
  import opened Models
  import opened PriceDecisions
  import opened NightFigures
  import opened CrossJoin
  import opened SegmentRuns
  import opened SegmentLaws
  import opened StoredSnapshots
  import opened PriceDecisionStage

  const PRICER: Pricer :=
    (cost: CostAggregate, night: KnownNight, date: Date, now: Millis, since: Option<Date>) =>
      BuildPriceDecision(cost, night, date, now, since)

  lemma PricerIsLawful()
    ensures Lawful(PRICER)
  {
  }

  method OpenPriceDecisionFunction() returns (f: PriceDecisionFunction)
    ensures fresh(f) && f.Valid() && f.price == PRICER && f.State() == EMPTY
  {
    PricerIsLawful();
    f := new PriceDecisionFunction(PRICER);
  }

  /** What the operator asks of its pricing function for a stored pair is what the source's assembly, loop
      by loop, computes for it. */
  method AssembleForPair(f: PriceDecisionFunction, pair: Pair, now: Millis) returns (o: Outcome)
    requires f.price == PRICER && Joined(f.State(), pair)
    ensures o == f.price(f.apartments[pair.apartment], Known(f.nights[pair.night]), pair.night, now,
                         Get(f.floorBreachSince, pair))
  {
    o := AssemblePriceDecision(f.apartments[pair.apartment], Known(f.nights[pair.night]), pair.night, now,
                               Get(f.floorBreachSince, pair));
  }

  /** In every reachable state the last decision published for a joined pair shows the price, the
      stay matrix, the minimum stay and the channel prices of the snapshots stored now, on the day it
      was decided. Those are the last cost the apartment took, the last blended rate the night took, and
      per platform the last rate of that platform. */
  lemma PublishedDecisionsAreCurrent(clock: Millis, events: seq<Event>, pair: Pair)
    requires LegalRun(PRICER, clock, events) && Joined(Run(PRICER, clock, events).seg, pair)
    ensures var w := Run(PRICER, clock, events);
            && pair in w.view
            && var decision := w.view[pair].outcome.decision;
            && PairOf(decision) == pair
            && decision.decidedAt <= w.clock
            && decision.daysToArrival == pair.night - DayOf(decision.decidedAt)
            && decision.pricing == PriceNight(w.seg.apartments[pair.apartment], Known(w.seg.nights[pair.night]),
                                              decision.daysToArrival)
            && decision.market == Known(w.seg.nights[pair.night]).market
    ensures var w := Run(PRICER, clock, events);
            var night := Known(w.seg.nights[pair.night]);
            && LastCost(PRICER, clock, events, pair.apartment) == Some(w.seg.apartments[pair.apartment])
            && LastRate(events, pair.night, None) == Some(night.market)
            && forall q :: LastRate(events, pair.night, Some(q)) == Get(night.channels, q)
  {
    PricerIsLawful();
    MaterializedView(PRICER, clock, events, pair);
    StatesStayAligned(PRICER, clock, events);
    StoredAreTheLast(clock, events, pair);
  }

  lemma StoredAreTheLast(clock: Millis, events: seq<Event>, pair: Pair)
    requires LegalRun(PRICER, clock, events) && Joined(Run(PRICER, clock, events).seg, pair)
    ensures var w := Run(PRICER, clock, events);
            var night := Known(w.seg.nights[pair.night]);
            && LastCost(PRICER, clock, events, pair.apartment) == Some(w.seg.apartments[pair.apartment])
            && LastRate(events, pair.night, None) == Some(night.market)
            && forall q :: LastRate(events, pair.night, Some(q)) == Get(night.channels, q)
  {
    PricerIsLawful();
    StoredCostIsTheLast(PRICER, clock, events, pair.apartment);
    StoredRatesAreTheLast(PRICER, clock, events);
    var nights := Run(PRICER, clock, events).seg.nights;
    assert RateIn(nights, pair.night, None) == LastRate(events, pair.night, None);
    forall q ensures LastRate(events, pair.night, Some(q)) == Get(nights[pair.night].channels, q) {
      assert RateIn(nights, pair.night, Some(q)) == LastRate(events, pair.night, Some(q));
    }
  }

  /** In every reachable state the decision published last for a joined pair is priced from the snapshots
      stored now: its rate is that of all percentage costs and the commission, the price of every stay length
      leaves the target margin over every percentage on its own revenue and over all three costs, so does
      every channel's price under its own commission, and the references are the market's. */
  lemma PublishedPricesKeepTheMargin(clock: Millis, events: seq<Event>, pair: Pair)
    requires LegalRun(PRICER, clock, events) && Joined(Run(PRICER, clock, events).seg, pair)
    ensures var w := Run(PRICER, clock, events);
            && pair in w.view
            && var decision := w.view[pair].outcome.decision;
               PricedFrom(decision.pricing, w.seg.apartments[pair.apartment], Known(w.seg.nights[pair.night]),
                          decision.daysToArrival)
  {
    PublishedDecisionsAreCurrent(clock, events, pair);
    var w := Run(PRICER, clock, events);
    NightIsPricedFrom(w.seg.apartments[pair.apartment], Known(w.seg.nights[pair.night]),
                      w.view[pair].outcome.decision.daysToArrival);
  }
}
