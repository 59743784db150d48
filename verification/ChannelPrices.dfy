/** What a channel's price leaves: each channel is grossed up by its own commission, and only that
    commission is netted, never the other percentage costs. */
module ChannelPrices {
  import opened Wrappers
  import opened Listings
  import opened PricingEngine
  import opened ProfitGuarantee

  /** The channel's commission as one more percentage cost. */
  function CommissionCost(platform: Platform, revenueBase: RevenueBase): PercentageCost {
    PercentageCost(OwnerCommission, ChannelCommission(platform), Some(revenueBase))
  }

  /** The inputs the matrix prices the channel with. */
  function InputsOf(base: PriceInputs, others: seq<PercentageCost>, costs: NettedCosts, revenueBase: RevenueBase,
                    platform: Platform, rate: real): PriceInputs
  {
    ChannelInputs(base, platform, rate, TotalRate(others), NettedRevenueBaseAmount(revenueBase, costs))
  }

  lemma SumWithLast(others: seq<PercentageCost>, last: PercentageCost, value: PercentageCost -> real)
    ensures Sum(others + [last], value) == Sum(others, value) + value(last)
  {
    assert (others + [last])[..|others|] == others;
  }

  /** The channel's netting falls short of the exact one by what the other costs would net. */
  lemma ChannelErrors(i: PriceInputs, others: seq<PercentageCost>, costs: NettedCosts, commission: PercentageCost)
    requires i.p == TotalRate(others) + commission.rate && i.netting == Netted(commission, costs)
    requires Sum(others, ExactTerm(costs)) >= 0.0
    ensures var pcs := others + [commission];
            && -0.00005 <= i.p - Sum(pcs, RateOf) <= 0.00005
            && i.netting - Sum(pcs, ExactTerm(costs)) <= 0.005
  {
    SumWithLast(others, commission, RateOf);
    SumWithLast(others, commission, ExactTerm(costs));
    TermError(commission, costs);
  }

  lemma ChannelNetting(base: PriceInputs, others: seq<PercentageCost>, costs: NettedCosts, revenueBase: RevenueBase,
                       platform: Platform, rate: real)
    ensures var i := InputsOf(base, others, costs, revenueBase, platform, rate);
            && i.p == TotalRate(others) + CommissionCost(platform, revenueBase).rate
            && i.netting == Netted(CommissionCost(platform, revenueBase), costs)
  {
  }

  /** The profit guarantee on every channel: after the channel's commission and the other percentage
      costs, each on its own base, the published channel price leaves the target margin up to the
      rounding slack; leaving the other costs' netting out only raises the price. */
  lemma ChannelProfitIsGuaranteed(base: PriceInputs, others: seq<PercentageCost>, costs: NettedCosts,
                                  revenueBase: RevenueBase,
                                  rates: map<Platform, real>, platform: Platform)
    requires platform in rates && Sum(others, ExactTerm(costs)) >= 0.0
    requires var i := InputsOf(base, others, costs, revenueBase, platform, rates[platform]); i.p + i.targetMargin < 1.0
    ensures var i := InputsOf(base, others, costs, revenueBase, platform, rates[platform]);
            var matrix := ChannelMatrix(rates, base, TotalRate(others), NettedRevenueBaseAmount(revenueBase, costs));
            && platform in matrix
            && var price := matrix[platform].suggestedPrice;
               Surplus(i, others + [CommissionCost(platform, revenueBase)], costs, price) >= -SlackWith(i, 0.005, price)
  {
    var i := InputsOf(base, others, costs, revenueBase, platform, rates[platform]);
    var commission := CommissionCost(platform, revenueBase);
    var pcs := others + [commission];
    var price := DecidePrice(i, 1).suggestedPrice;
    ChannelNetting(base, others, costs, revenueBase, platform, rates[platform]);
    ChannelErrors(i, others, costs, commission);
    PublishedRecovers(i);
    ChannelSurplus(i, pcs, costs, price);
  }

  lemma ChannelSurplus(i: PriceInputs, pcs: seq<PercentageCost>, costs: NettedCosts, price: real)
    requires i.p + i.targetMargin < 1.0 && Recovers(i, price)
    requires -0.00005 <= i.p - Sum(pcs, RateOf) <= 0.00005 && i.netting - Sum(pcs, ExactTerm(costs)) <= 0.005
    ensures Surplus(i, pcs, costs, price) >= -SlackWith(i, 0.005, price)
  {
    ChargedSplits(pcs, costs, price);
    SurplusFrom(i, price, Charged(pcs, costs, price), Sum(pcs, RateOf), Sum(pcs, ExactTerm(costs)), 0.005);
  }
}
