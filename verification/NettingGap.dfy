/** What netting a fee in full does to the profit guarantee: the case of one quarterly or annual fee,
    carried from the payment line to the status of the price. */
module NettingGap {
  import opened Wrappers
  import opened Rounding
  import opened Listings
  import opened PricingEngine
  import opened Models
  import opened CostAggregation
  import opened NettedAmounts
  import opened PriceDecisions
  import opened ProfitGuarantee

  /** The aggregate carries these amounts, and its only percentage cost is the owner's commission,
      charged on revenue net of OTA costs. */
  predicate ChargedNetOfOta(cost: CostAggregate, g: Aggregation, rate: real) {
    && cost.fixedCost == g.fixedCost && cost.variableCost == g.variableCost && cost.perBookingCost == g.perBookingCost
    && cost.netted == g.netted && cost.percentageCosts == g.percentageCosts
    && cost.commissionPct == rate && cost.commissionBase == RevenueMinusOta
  }

  function CommissionNetOfOta(rate: real): PercentageCost {
    PercentageCost(OwnerCommission, rate, Some(RevenueMinusOta))
  }

  lemma OnlyTheFee(line: PaymentLine, end: Date, c: real)
    requires CostsPerNight(line, end, c)
    ensures AggregateMatching([line], end).percentageCosts == []
    ensures AggregateMatching([line], end).perBookingCost == 0.0
  {
    var one := [line];
    assert one[..|one| - 1] == [];
    assert Filter(one[..|one| - 1], IsPercentage) == [] && Filter(one[..|one| - 1], IsOneTime) == [];
    assert Filter(one, IsPercentage) == [] && Filter(one, IsOneTime) == [];
  }

  lemma SumOfOneCost(pc: PercentageCost, value: PercentageCost -> real)
    ensures Sum([pc], value) == value(pc)
  {
    var one := [pc];
    assert one[..|one| - 1] == [];
  }

  lemma RateOfCommission(rate: real)
    requires Round4(rate) == rate
    ensures TotalRate([CommissionNetOfOta(rate)]) == rate
  {
    SumOfOneCost(CommissionNetOfOta(rate), RateOf);
  }

  function Charge(rate: real, base: real): real {
    rate * base
  }

  lemma NettingOfCommission(rate: real, costs: NettedCosts, netting: real)
    requires netting == Charge(rate, costs.ota) && IsCents(netting)
    ensures NettingEur([CommissionNetOfOta(rate)], costs) == netting
  {
    var pc := CommissionNetOfOta(rate);
    SumOfOneCost(pc, NettingTerm(costs));
    Round2OfCents(netting);
    assert ExactNetted(pc, costs) == netting;
    assert NettingTerm(costs)(pc) == Round2(ExactNetted(pc, costs));
  }

  function FeeNetting(line: PaymentLine, c: real, rate: real): real {
    Charge(rate, TimesMonths(line, c))
  }

  lemma CostOfFee(line: PaymentLine, end: Date, c: real, rate: real, cost: CostAggregate, market: MarketSnapshot,
                  days: int)
    requires CostsPerNight(line, end, c) && ChargedNetOfOta(cost, AggregateMatching([line], end), rate)
    ensures CostPerNight(NightInputs(cost, market, days), 1) == c
  {
    PeriodicFeeIsNettedInFull(line, end, c);
    OnlyTheFee(line, end, c);
    Round2OfCents(c);
  }

  lemma OnlyTheCommission(line: PaymentLine, end: Date, c: real, rate: real, cost: CostAggregate)
    requires CostsPerNight(line, end, c) && ChargedNetOfOta(cost, AggregateMatching([line], end), rate)
    ensures AllPercentageCosts(cost) == [CommissionNetOfOta(rate)]
  {
    OnlyTheFee(line, end, c);
  }

  lemma NettedOta(line: PaymentLine, end: Date, c: real, rate: real, cost: CostAggregate)
    requires CostsPerNight(line, end, c) && ChargedNetOfOta(cost, AggregateMatching([line], end), rate)
    ensures cost.netted.ota == TimesMonths(line, c)
  {
    PeriodicFeeNetted(line, end, c);
  }

  lemma RatesOfFee(line: PaymentLine, end: Date, c: real, rate: real, cost: CostAggregate)
    requires CostsPerNight(line, end, c) && ChargedNetOfOta(cost, AggregateMatching([line], end), rate)
    requires Round4(rate) == rate && IsCents(FeeNetting(line, c, rate))
    ensures TotalRate(AllPercentageCosts(cost)) == rate
    ensures NettingEur(AllPercentageCosts(cost), cost.netted) == FeeNetting(line, c, rate)
  {
    OnlyTheCommission(line, end, c, rate, cost);
    NettedOta(line, end, c, rate, cost);
    RateOfCommission(rate);
    NettingOfCommission(rate, cost.netted, FeeNetting(line, c, rate));
  }

  lemma InputsOfFee(line: PaymentLine, end: Date, c: real, rate: real, cost: CostAggregate, market: MarketSnapshot,
                    days: int)
    requires CostsPerNight(line, end, c) && ChargedNetOfOta(cost, AggregateMatching([line], end), rate)
    requires Round4(rate) == rate && IsCents(FeeNetting(line, c, rate))
    ensures var i := NightInputs(cost, market, days);
            && i.p == rate && i.netting == FeeNetting(line, c, rate)
            && i.targetMargin == cost.targetMargin && CostPerNight(i, 1) == c
  {
    CostOfFee(line, end, c, rate, cost, market, days);
    RatesOfFee(line, end, c, rate, cost);
  }

  lemma LimitOfFee(i: PriceInputs, line: PaymentLine, c: real)
    requires CostPerNight(i, 1) == c && c > 0.0 && i.netting == FeeNetting(line, c, i.p)
    ensures i.netting <= NettingLimit(i) <==>
            (Months(line) as real - 1.0) * i.p <= i.targetMargin * (i.p + i.targetMargin)
  {
    var months := Months(line) as real;
    var room := i.targetMargin * (i.p + i.targetMargin) - (months - 1.0) * i.p;
    assert NettingLimit(i) - i.netting == c * room;
    if room >= 0.0 { assert c * room >= 0.0; } else { assert c * -room > 0.0; }
  }

  lemma AgreesUnlessNettedOver(i: PriceInputs, line: PaymentLine, c: real)
    requires SoundInputs(i) && CostPerNight(i, 1) == c && c > 0.0 && i.netting == FeeNetting(line, c, i.p)
    ensures AgreesOnEveryMarket(i) <==>
            (Months(line) as real - 1.0) * i.p <= i.targetMargin * (i.p + i.targetMargin)
  {
    LimitOfFee(i, line, c);
    NettingLimitIsExact(i);
  }

  /** The whole cost of a night is a fee of several months, and the only percentage cost is charged net of
      it: the unrounded price agrees with its status on every market if and only if two (quarterly) or
      eleven (annual) times the rate is at most margin * (rate + margin). */
  lemma FeeAgainstLimit(line: PaymentLine, end: Date, c: real, rate: real, cost: CostAggregate, market: MarketSnapshot,
                        days: int, i: PriceInputs)
    requires CostsPerNight(line, end, c) && ChargedNetOfOta(cost, AggregateMatching([line], end), rate)
    requires Round4(rate) == rate && IsCents(FeeNetting(line, c, rate))
    requires i == NightInputs(cost, market, days) && SoundInputs(i)
    ensures AgreesOnEveryMarket(i) <==>
            (Months(line) as real - 1.0) * i.p <= i.targetMargin * (i.p + i.targetMargin)
    ensures i.p == rate && i.targetMargin == cost.targetMargin
  {
    InputsOfFee(line, end, c, rate, cost, market, days);
    AgreesUnlessNettedOver(i, line, c);
  }

  // ---------------------------------------------------------------- an instance

  /** 3600 EUR a year, that is 10 EUR a night of a period of 30 days. */
  const YEARLY_FEE := PaymentLine("fee", "flat", 1, 30, 3600.0, OtaFee, PropertyScope, FixedCost, FixedAmount, Annual,
                                  None, Direct, None)

  function CostOfYearlyFee(): CostAggregate {
    var g := AggregateMatching([YEARLY_FEE], 30);
    CostAggregate("flat", g.fixedCost, g.variableCost, g.perBookingCost, g.totalMonthlyCost, g.availableDays,
                  g.linesCount,
                  g.periodStart, g.periodEnd, 0.2, 0.0, 1, 0, 1.0, 0.15, RevenueMinusOta, g.percentageCosts, g.netted,
                  0, 0, 0.0, g.pending)
  }

  const SOME_MARKET := MarketSnapshot("area", 100.0, None, 10, 0)

  lemma YearlyFeeCosts()
    ensures CostsPerNight(YEARLY_FEE, 30, 10.0) && TimesMonths(YEARLY_FEE, 10.0) == 120.0
  {
    assert (10.0 * 100.0).Floor == 1000;
  }

  lemma FifteenPercent()
    ensures Round4(0.15) == 0.15 && FeeNetting(YEARLY_FEE, 10.0, 0.15) == 18.0 && IsCents(18.0)
  {
    YearlyFeeCosts();
    NearestOfInt(1500);
    assert (18.0 * 100.0).Floor == 1800;
  }

  lemma ReferenceOfSomeMarket(cost: CostAggregate)
    requires cost.attributeFactor == 1.0 && cost.discount == 0.0
    ensures PropertyReference(NightInputs(cost, SOME_MARKET, 45)) == 100.0
    ensures NightInputs(cost, SOME_MARKET, 45).discount == 0.0
  {
    assert BookingWindowFactor(45) == 1.0;
  }

  lemma SoundWith(i: PriceInputs)
    requires CostPerNight(i, 1) == 10.0 && i.p == 0.15 && i.targetMargin == 0.2
    requires i.discount == 0.0 && PropertyReference(i) == 100.0
    ensures SoundInputs(i)
  {
  }

  /** With a commission of 15% net of the fee and a margin of 20%, netting is 18 EUR on a cost of 10: on
      some market the price falls short of what the status asks. */
  lemma YearlyFeeFallsShort()
    ensures ChargedNetOfOta(CostOfYearlyFee(), AggregateMatching([YEARLY_FEE], 30), 0.15)
    ensures NightInputs(CostOfYearlyFee(), SOME_MARKET, 45).netting == 18.0
    ensures CostPerNight(NightInputs(CostOfYearlyFee(), SOME_MARKET, 45), 1) == 10.0
    ensures !AgreesOnEveryMarket(NightInputs(CostOfYearlyFee(), SOME_MARKET, 45))
  {
    var cost := CostOfYearlyFee();
    var i := NightInputs(cost, SOME_MARKET, 45);
    YearlyFeeCosts();
    FifteenPercent();
    InputsOfFee(YEARLY_FEE, 30, 10.0, 0.15, cost, SOME_MARKET, 45);
    ReferenceOfSomeMarket(cost);
    SoundWith(i);
    FeeAgainstLimit(YEARLY_FEE, 30, 10.0, 0.15, cost, SOME_MARKET, 45, i);
  }
}
