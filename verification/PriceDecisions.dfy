/** `_build_price_decision`: one (apartment, night) pair priced from the stored snapshots, with its
    floor-breach streak updated before it is classified. */
module PriceDecisions {
  import opened Wrappers
  import opened Rounding
  import opened PricingEngine
  import opened ProfitGuarantee
  import opened Models

  function AllPercentageCosts(cost: CostAggregate): seq<PercentageCost> {
    cost.percentageCosts + [PercentageCost(OwnerCommission, cost.commissionPct, Some(cost.commissionBase))]
  }

  function CostBeforeBooking(cost: CostAggregate): real {
    Round2(cost.fixedCost + cost.variableCost)
  }

  function InputsFor(cost: CostAggregate, marketRate: real, p: real, netting: real, daysToArrival: int): PriceInputs {
    PriceInputs(CostBeforeBooking(cost), cost.perBookingCost, p, cost.targetMargin, marketRate,
                cost.discount, cost.attributeFactor, netting, daysToArrival)
  }

  function NightInputs(cost: CostAggregate, market: MarketSnapshot, daysToArrival: int): PriceInputs {
    var pcs := AllPercentageCosts(cost);
    InputsFor(cost, market.avgNightlyRate, TotalRate(pcs), NettingEur(pcs, cost.netted), daysToArrival)
  }

  function PriceNight(cost: CostAggregate, night: KnownNight, daysToArrival: int): Pricing
  {
    var inputs := NightInputs(cost, night.market, daysToArrival);
    var price := DecidePrice(inputs, 1);
    var matrix := LosMatrix(inputs, LOS_CANDIDATES);
    Pricing(
      inputs.costPerNight, inputs.p, inputs.netting, price, matrix,
      RecommendMinimumStay(matrix, price.propertyReference, inputs.costPerNight, cost.perBookingCost),
      ChannelMatrix(ChannelRates(night), inputs, TotalRate(cost.percentageCosts),
                    NettedRevenueBaseAmount(cost.commissionBase, cost.netted)))
  }

  predicate AnyChannelCompetitive(channels: map<Platform, ChannelCandidate>) {
    exists platform :: platform in channels && channels[platform].rule.MarketCompetitive?
  }

  /** The streak after a decision on day `today` whose rule is `rule`. */
  function NextBreachSince(rule: Rule, since: Option<Date>, today: Date): Option<Date> {
    if rule.MarketCompetitive? then None else if since.Some? then since else Some(today)
  }

  function DecisionFrom(pricing: Pricing, cost: CostAggregate, night: KnownNight, targetDate: Date,
                        now: Millis, newSince: Option<Date>): PriceDecision
  {
    var today := DayOf(now);
    var breachDays := if newSince.Some? then today - newSince.value else 0;
    var age := (now - night.market.collectedAt) / 1000;
    PriceDecision(
      cost.apartmentId, targetDate, now, targetDate - today, if age < 0 then 0 else age, night.market,
      cost.commissionPct, cost.strategyVersion, pricing,
      ClassifyViability(pricing.price.rule, pricing.price.belowMarketBy, pricing.minimumStay.recommended,
                        AnyChannelCompetitive(pricing.channels), false, breachDays),
      breachDays)
  }

  function BuildPriceDecision(cost: CostAggregate, night: KnownNight, targetDate: Date,
                              now: Millis, since: Option<Date>): (o: Outcome)
    ensures o.decision.apartmentId == cost.apartmentId && o.decision.targetDate == targetDate
            && o.decision.decidedAt == now
    ensures o.decision.pricing == PriceNight(cost, night, targetDate - DayOf(now))
    ensures o.breachSince == if !Breaches(o.decision) then None else if since.Some? then since else Some(DayOf(now))
    ensures o.decision.floorBreachDays == if o.breachSince.Some? then DayOf(now) - o.breachSince.value else 0
    ensures o.decision.daysToArrival == targetDate - DayOf(now) && o.decision.market == night.market
    ensures o.decision.commissionPct == cost.commissionPct && o.decision.strategyVersion == cost.strategyVersion
    ensures o.decision.dataAgeSeconds >= 0
    ensures now < night.market.collectedAt ==> o.decision.dataAgeSeconds == 0
    ensures now >= night.market.collectedAt ==>
              o.decision.dataAgeSeconds * 1000 <= now - night.market.collectedAt
                  < (o.decision.dataAgeSeconds + 1) * 1000
  {
    var pricing := PriceNight(cost, night, targetDate - DayOf(now));
    var newSince := NextBreachSince(pricing.price.rule, since, DayOf(now));
    Outcome(DecisionFrom(pricing, cost, night, targetDate, now, newSince), newSince)
  }

  /** The viability status of a decision, case by case: it is read off the streak as this decision leaves
      it, so a decision that clears the floor never reports a persistent breach. */
  lemma ViabilityExactly(cost: CostAggregate, night: KnownNight, targetDate: Date, now: Millis, since: Option<Date>)
    ensures var d := BuildPriceDecision(cost, night, targetDate, now, since).decision;
            var persistent := d.floorBreachDays >= 30;
            var channel := exists platform :: platform in d.pricing.channels
                                              && d.pricing.channels[platform].rule.MarketCompetitive?;
            var longer := d.pricing.minimumStay.recommended.Some? && d.pricing.minimumStay.recommended.value > 1;
            && !d.viability.OverrideActive?
            && (d.viability.PersistentFloorBreach? <==> persistent)
            && (d.viability.Ok? || d.viability.DemandUpside? <==> !Breaches(d))
            && (d.viability.DemandUpside? <==> !Breaches(d) && d.pricing.price.belowMarketBy <= 0.0)
            && (d.viability.MinStayLeverAvailable? <==> Breaches(d) && !persistent && longer)
            && (d.viability.ChannelLeverAvailable? <==>
                  Breaches(d) && !persistent && !longer && channel)
            && (d.viability.FloorBinding? <==>
                  Breaches(d) && !persistent && !longer && !channel)
  {
    var pricing := PriceNight(cost, night, targetDate - DayOf(now));
    var newSince := NextBreachSince(pricing.price.rule, since, DayOf(now));
    StatusOfDecision(pricing, cost, night, targetDate, now, newSince);
  }

  lemma StatusOfDecision(pricing: Pricing, cost: CostAggregate, night: KnownNight, targetDate: Date, now: Millis,
                         newSince: Option<Date>)
    requires newSince.None? <==> pricing.price.rule.MarketCompetitive?
    ensures var d := DecisionFrom(pricing, cost, night, targetDate, now, newSince);
            d.pricing == pricing &&
            d.viability == ClassifyViability(pricing.price.rule, pricing.price.belowMarketBy,
                                             pricing.minimumStay.recommended,
                                             AnyChannelCompetitive(pricing.channels), false, d.floorBreachDays) &&
            (newSince.None? ==> d.floorBreachDays == 0)
  {
  }

  /** The steps of the source, loop by loop. */
  method AssemblePriceDecision(cost: CostAggregate, night: KnownNight, targetDate: Date,
                               now: Millis, since: Option<Date>) returns (o: Outcome)
    ensures o == BuildPriceDecision(cost, night, targetDate, now, since)
  {
    var market := night.market;
    var days := targetDate - DayOf(now);
    var pcs := AllPercentageCosts(cost);
    var netting := AccumulateNetting(pcs, cost.netted);
    var inputs := InputsFor(cost, market.avgNightlyRate, TotalRate(pcs), netting, days);
    var price := DecidePrice(inputs, 1);
    var matrix := DecidePriceLosMatrix(inputs, LOS_CANDIDATES);
    var stay := ScanMinimumStay(matrix, price.propertyReference, inputs.costPerNight, cost.perBookingCost);
    var channels := DecidePriceByChannel(ChannelRates(night), inputs, TotalRate(cost.percentageCosts),
                                         NettedRevenueBaseAmount(cost.commissionBase, cost.netted));
    var pricing := Pricing(inputs.costPerNight, inputs.p, inputs.netting, price, matrix, stay, channels);
    var newSince := NextBreachSince(price.rule, since, DayOf(now));
    o := Outcome(DecisionFrom(pricing, cost, night, targetDate, now, newSince), newSince);
  }
}
