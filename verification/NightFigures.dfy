/** A priced night in the aggregate's own figures: its lines' percentages and the owner's commission, each on
    its own revenue, its three costs, its market rate; for every stay length and every channel. */
module NightFigures {
  import opened Wrappers
  import opened Rounding
  import opened Listings
  import opened PricingEngine
  import opened ProfitGuarantee
  import opened Models
  import opened PriceDecisions
  import ChannelPrices
  import BookingWindow
  import MinimumStayPrice
  import CostAggregation
  import AllocationCorrection

  // ---------------------------------------------------------------- what is taken from a price

  /** The revenue a percentage is charged on, when a night earns this price. */
  function RevenueAfter(base: RevenueBase, price: real, costs: NettedCosts): real {
    match base
    case TotalRevenue => price
    case RevenueMinusOta => price - costs.ota
    case RevenueMinusOtaMinusCleaning => price - costs.ota - costs.cleaning
    case RevenueMinusOtaMinusCleaningMinusLaundry => price - costs.ota - costs.cleaning - costs.laundry
    case RevenueMinusAllBookingCosts => price - costs.bookingScope
  }

  function BaseOf(pc: PercentageCost): RevenueBase {
    if pc.revenueBase.Some? then pc.revenueBase.value else TotalRevenue
  }

  function TakenBy(costs: NettedCosts, price: real): PercentageCost -> real {
    (pc: PercentageCost) => pc.rate * RevenueAfter(BaseOf(pc), price, costs)
  }

  /** What the percentage costs of the payment lines take from a price. */
  function LinesTake(cost: CostAggregate, price: real): real {
    Sum(cost.percentageCosts, TakenBy(cost.netted, price))
  }

  /** What a commission on the apartment's commission base takes from a price. */
  function CommissionTakes(cost: CostAggregate, commission: real, price: real): real {
    commission * RevenueAfter(cost.commissionBase, price, cost.netted)
  }

  /** What a night of a stay leaves of its price over the target margin on it, before the booking's cost. */
  function NightLeaves(cost: CostAggregate, commission: real, price: real): real {
    price - LinesTake(cost, price) - CommissionTakes(cost, commission, price) - MarginOn(cost.targetMargin, price)
      - (cost.fixedCost + cost.variableCost)
  }

  /** What a stay of so many nights leaves: every night's remainder, less one booking's cost. */
  function StayLeaves(cost: CostAggregate, commission: real, price: real, nights: int): real {
    ForNights(NightLeaves(cost, commission, price), nights) - cost.perBookingCost
  }

  /** The rates as the decision shows them, the owner's commission included. */
  function NightRate(cost: CostAggregate): real {
    Round4(Sum(cost.percentageCosts, RateOf) + cost.commissionPct)
  }

  function ChannelRate(cost: CostAggregate, platform: Platform): real {
    Round4(Sum(cost.percentageCosts, RateOf)) + ChannelCommission(platform)
  }

  /** Half a cent for the night's cost and for the price, half a cent for each netted term, and half a unit
      of the rates' fourth digit. */
  function NightSlack(cost: CostAggregate, rate: real, netted: nat, price: real): real {
    0.00005 * Abs(price) + 0.005 * netted as real + 0.005 * (1.0 - rate - cost.targetMargin) + 0.005
  }

  /** The stay's price leaves the target margin, to within the slack of each night. */
  predicate KeepsMargin(cost: CostAggregate, price: real, nights: int) {
    StayLeaves(cost, cost.commissionPct, price, nights) >=
    -ForNights(NightSlack(cost, NightRate(cost), |cost.percentageCosts| + 1, price), nights)
  }

  /** The same of a channel's price for one night, under the channel's own commission. */
  predicate ChannelKeepsMargin(cost: CostAggregate, platform: Platform, price: real) {
    StayLeaves(cost, ChannelCommission(platform), price, 1) >= -NightSlack(cost, ChannelRate(cost, platform), 1, price)
  }

  /** The rates and the margin together stay below the whole revenue. */
  predicate Sustainable(cost: CostAggregate) {
    NightRate(cost) + cost.targetMargin < 1.0
  }

  predicate ChannelSustainable(cost: CostAggregate, platform: Platform) {
    ChannelRate(cost, platform) + cost.targetMargin < 1.0
  }

  lemma ChargeIsTaken(pc: PercentageCost, costs: NettedCosts, price: real)
    ensures ChargeAt(costs, price)(pc) == TakenBy(costs, price)(pc)
  {
    assert price - NetOf(pc, costs) == RevenueAfter(BaseOf(pc), price, costs);
  }

  lemma ChargedIsTaken(pcs: seq<PercentageCost>, costs: NettedCosts, price: real)
    ensures Charged(pcs, costs, price) == Sum(pcs, TakenBy(costs, price))
  {
    forall pc | pc in pcs ensures ChargeAt(costs, price)(pc) == TakenBy(costs, price)(pc) {
      ChargeIsTaken(pc, costs, price);
    }
    SumAgrees(pcs, ChargeAt(costs, price), TakenBy(costs, price));
  }

  /** One commission more. */
  lemma ChargedWithCommission(cost: CostAggregate, commission: PercentageCost, price: real)
    requires commission.revenueBase == Some(cost.commissionBase)
    ensures Charged(cost.percentageCosts + [commission], cost.netted, price) ==
            LinesTake(cost, price) + CommissionTakes(cost, commission.rate, price)
  {
    ChargedIsTaken(cost.percentageCosts + [commission], cost.netted, price);
    ChannelPrices.SumWithLast(cost.percentageCosts, commission, TakenBy(cost.netted, price));
    CommissionIsTaken(cost, commission, price);
  }

  lemma CommissionIsTaken(cost: CostAggregate, commission: PercentageCost, price: real)
    requires commission.revenueBase == Some(cost.commissionBase)
    ensures TakenBy(cost.netted, price)(commission) == CommissionTakes(cost, commission.rate, price)
  {
  }

  // ---------------------------------------------------------------- what a night is priced from

  lemma RatesOfNight(cost: CostAggregate)
    ensures TotalRate(AllPercentageCosts(cost)) == NightRate(cost)
    ensures |AllPercentageCosts(cost)| == |cost.percentageCosts| + 1
  {
    ChannelPrices.SumWithLast(cost.percentageCosts,
                              PercentageCost(OwnerCommission, cost.commissionPct, Some(cost.commissionBase)), RateOf);
  }

  /** The booking's cost spread over the nights of the stay: the inputs of one such night. */
  function NightOfStay(i: PriceInputs, nights: int): PriceInputs
    requires nights > 0
  {
    i.(perBookingCost := i.perBookingCost / nights as real)
  }

  lemma SameFloor(i: PriceInputs, nights: int)
    requires nights > 0
    ensures CostPerNight(i, nights) == CostPerNight(NightOfStay(i, nights), 1)
    ensures FloorPrice(i, nights) == FloorPrice(NightOfStay(i, nights), 1)
  {
  }

  lemma SameReferences(i: PriceInputs, nights: int)
    requires nights > 0
    ensures PropertyReference(i) == PropertyReference(NightOfStay(i, nights))
    ensures MarketReference(i) == MarketReference(NightOfStay(i, nights))
  {
  }

  /** A night of a longer stay is priced as a single night that bears its part of the booking's cost. */
  lemma StayIsPricedByNight(i: PriceInputs, nights: int)
    requires nights > 0
    ensures Arbitrate(i, nights) == Arbitrate(NightOfStay(i, nights), 1)
    ensures DecidePrice(i, nights).suggestedPrice == DecidePrice(NightOfStay(i, nights), 1).suggestedPrice
  {
    SameFloor(i, nights);
    SameReferences(i, nights);
    MinimumStayPrice.PublishedNight(i, nights);
    MinimumStayPrice.PublishedNight(NightOfStay(i, nights), 1);
  }

  lemma CostOfStayNight(i: PriceInputs, nights: int, each: real)
    requires nights > 0 && each == i.perBookingCost / nights as real
    ensures CostPerNight(NightOfStay(i, nights), 1) == i.costPerNight + each
  {
    assert NightOfStay(i, nights).perBookingCost == each;
    OverOne(each);
  }

  lemma CostsOfNight(cost: CostAggregate, i: PriceInputs, nights: int, each: real, costOfNight: real)
    requires i.costPerNight == Round2(cost.fixedCost + cost.variableCost) && nights > 0
    requires each == i.perBookingCost / nights as real && costOfNight == CostPerNight(NightOfStay(i, nights), 1)
    ensures WithinHalfCent(costOfNight, cost.fixedCost + cost.variableCost + each)
  {
    CostOfStayNight(i, nights, each);
    RoundedCost(cost.fixedCost + cost.variableCost, each, costOfNight);
  }

  lemma RoundedCost(exact: real, each: real, costOfNight: real)
    requires costOfNight == Round2(exact) + each
    ensures WithinHalfCent(costOfNight, exact + each)
  {
  }

  predicate WithinHalfCent(a: real, b: real) {
    -0.005 <= a - b <= 0.005
  }

  lemma OverOne(x: real)
    ensures x / 1 as real == x
  {
  }

  // ---------------------------------------------------------------- what a price leaves

  lemma SurplusOfNight(cost: CostAggregate, night: PriceInputs, rate: real, charged: real, price: real, each: real)
    requires charged == LinesTake(cost, price) + CommissionTakes(cost, rate, price)
    requires WithinHalfCent(CostPerNight(night, 1), cost.fixedCost + cost.variableCost + each)
    requires night.targetMargin == cost.targetMargin
    ensures SurplusAfter(night, charged, price) <= NightLeaves(cost, rate, price) - each + 0.005
  {
  }

  /** The surplus over the target margin, in the aggregate's figures. */
  lemma SurplusIs(cost: CostAggregate, i: PriceInputs, commission: PercentageCost, price: real, nights: int, each: real)
    requires i.costPerNight == Round2(cost.fixedCost + cost.variableCost) && nights > 0
    requires i.targetMargin == cost.targetMargin && each == i.perBookingCost / nights as real
    requires commission.revenueBase == Some(cost.commissionBase)
    ensures Surplus(NightOfStay(i, nights), cost.percentageCosts + [commission], cost.netted, price) <=
            NightLeaves(cost, commission.rate, price) - each + 0.005
  {
    var night := NightOfStay(i, nights);
    CostsOfNight(cost, i, nights, each, CostPerNight(night, 1));
    ChargedWithCommission(cost, commission, price);
    SurplusOfNight(cost, night, commission.rate,
                   Charged(cost.percentageCosts + [commission], cost.netted, price), price, each);
  }

  lemma OverTheStay(left: real, booking: real, slack: real, nights: int)
    requires nights > 0 && left - booking / nights as real >= -slack
    ensures ForNights(left, nights) - booking >= -ForNights(slack, nights)
  {
    var n := nights as real;
    var each := booking / n;
    assert each * n == booking;
    ProductNotNegative(left - each + slack, n);
    assert (left - each + slack) * n == left * n - each * n + slack * n;
  }

  lemma NightInputsFields(cost: CostAggregate, market: MarketSnapshot, days: int, i: PriceInputs)
    requires i == NightInputs(cost, market, days)
    ensures i.costPerNight == Round2(cost.fixedCost + cost.variableCost) && i.perBookingCost == cost.perBookingCost
    ensures i.targetMargin == cost.targetMargin && i.discount == cost.discount
    ensures i.marketRate == market.avgNightlyRate && i.attributeFactor == cost.attributeFactor
    ensures i.daysToArrival == days
    ensures i.p == NightRate(cost)
    ensures PricesWith(i, AllPercentageCosts(cost), cost.netted)
  {
    RatesOfNight(cost);
  }

  lemma SlackOfNight(cost: CostAggregate, i: PriceInputs, terms: nat, price: real)
    requires i.targetMargin == cost.targetMargin
    ensures SlackWith(i, 0.005 * terms as real, price) + 0.005 == NightSlack(cost, i.p, terms, price)
  {
  }

  /** The price of a stay of any length leaves the target margin over everything the aggregate charges and
      costs, the booking's cost once, to within the slack of each night. */
  lemma StayKeepsTheMargin(cost: CostAggregate, market: MarketSnapshot, days: int, i: PriceInputs, nights: int)
    requires i == NightInputs(cost, market, days) && nights > 0
    requires Sustainable(cost)
    ensures KeepsMargin(cost, DecidePrice(i, nights).suggestedPrice, nights)
  {
    var pcs := AllPercentageCosts(cost);
    var commission := PercentageCost(OwnerCommission, cost.commissionPct, Some(cost.commissionBase));
    var night := NightOfStay(i, nights);
    var price := DecidePrice(i, nights).suggestedPrice;
    NightInputsFields(cost, market, days, i);
    RatesOfNight(cost);
    StayIsPricedByNight(i, nights);
    ProfitIsGuaranteed(night, pcs, cost.netted);
    SurplusIs(cost, i, commission, price, nights, cost.perBookingCost / nights as real);
    SlackOfNight(cost, night, |pcs|, price);
    OverTheStay(NightLeaves(cost, cost.commissionPct, price), cost.perBookingCost,
                NightSlack(cost, NightRate(cost), |pcs|, price), nights);
  }

  // ---------------------------------------------------------------- the published night

  lemma PublishedPrice(cost: CostAggregate, night: KnownNight, days: int, i: PriceInputs)
    requires i == NightInputs(cost, night.market, days)
    ensures PriceNight(cost, night, days).price == DecidePrice(i, 1)
  {
  }

  /** The matrix and the recommendation of these inputs, over the default stay lengths. */
  function MatrixOf(i: PriceInputs): seq<LosCandidate> {
    LosMatrix(i, LOS_CANDIDATES)
  }

  function StayOf(i: PriceInputs): MinimumStay {
    LengthOfStay.Recommendation(i, LOS_CANDIDATES)
  }

  lemma PublishedMatrix(cost: CostAggregate, night: KnownNight, days: int, i: PriceInputs)
    requires i == NightInputs(cost, night.market, days)
    ensures PriceNight(cost, night, days).losMatrix == MatrixOf(i)
  {
  }

  lemma PublishedStay(cost: CostAggregate, night: KnownNight, days: int, i: PriceInputs)
    requires i == NightInputs(cost, night.market, days)
    ensures PriceNight(cost, night, days).minimumStay == StayOf(i)
  {
  }

  lemma PublishedChannels(cost: CostAggregate, night: KnownNight, days: int, i: PriceInputs)
    requires i == NightInputs(cost, night.market, days)
    ensures PriceNight(cost, night, days).channels ==
            ChannelMatrix(ChannelRates(night), i, TotalRate(cost.percentageCosts),
                          NettedRevenueBaseAmount(cost.commissionBase, cost.netted))
  {
  }

  /** The stay lengths that are priced. */
  function StayLength(k: nat): (nights: int)
    requires k < 5
    ensures nights > 0
  {
    [1, 2, 3, 7, 14][k]
  }

  lemma MatrixEntry(i: PriceInputs, k: nat)
    requires k < 5
    ensures |MatrixOf(i)| == 5 && MatrixOf(i)[k].stayLength == StayLength(k)
    ensures MatrixOf(i)[k].suggestedPrice == DecidePrice(i, StayLength(k)).suggestedPrice
  {
  }

  lemma PublishedEntry(cost: CostAggregate, night: KnownNight, days: int, i: PriceInputs, k: nat)
    requires i == NightInputs(cost, night.market, days) && k < 5
    ensures var matrix := PriceNight(cost, night, days).losMatrix;
            && |matrix| == 5
            && matrix[k].stayLength == StayLength(k)
            && matrix[k].suggestedPrice == DecidePrice(i, StayLength(k)).suggestedPrice
  {
    PublishedMatrix(cost, night, days, i);
    MatrixEntry(i, k);
  }

  /** Every stay of the published matrix, one night among them, keeps the margin. */
  lemma PublishedStaysKeepTheMargin(cost: CostAggregate, night: KnownNight, days: int, k: nat)
    requires Sustainable(cost) && k < 5
    ensures var matrix := PriceNight(cost, night, days).losMatrix;
            && |matrix| == 5
            && matrix[k].stayLength == StayLength(k)
            && KeepsMargin(cost, matrix[k].suggestedPrice, matrix[k].stayLength)
  {
    var i := NightInputs(cost, night.market, days);
    PublishedEntry(cost, night, days, i, k);
    StayKeepsTheMargin(cost, night.market, days, i, StayLength(k));
  }

  lemma ForOneNight(x: real)
    ensures ForNights(x, 1) == x
  {
  }

  /** The published price of one night keeps the margin. */
  lemma PublishedNightKeepsTheMargin(cost: CostAggregate, night: KnownNight, days: int)
    requires Sustainable(cost)
    ensures KeepsMargin(cost, PriceNight(cost, night, days).price.suggestedPrice, 1)
  {
    var i := NightInputs(cost, night.market, days);
    PublishedPrice(cost, night, days, i);
    StayKeepsTheMargin(cost, night.market, days, i, 1);
  }

  // ---------------------------------------------------------------- channels

  lemma TakenOfNothing(pcs: seq<PercentageCost>, costs: NettedCosts)
    ensures Sum(pcs, ExactTerm(costs)) == -Sum(pcs, TakenBy(costs, 0.0))
  {
    ChargedIsTaken(pcs, costs, 0.0);
    ChargedSplits(pcs, costs, 0.0);
  }

  /** One night in these inputs. */
  lemma OneNight(i: PriceInputs)
    ensures NightOfStay(i, 1) == i
  {
  }

  lemma ChannelFields(cost: CostAggregate, i: PriceInputs, platform: Platform, rate: real)
    ensures var c := ChannelPrices.InputsOf(i, cost.percentageCosts, cost.netted, cost.commissionBase, platform, rate);
            && c == i.(marketRate := rate, p := ChannelRate(cost, platform), netting := c.netting)
  {
  }

  /** Every channel's published price keeps the margin after the channel's own commission; on nothing the
      lines' percentages must take nothing. */
  lemma PublishedChannelKeepsTheMargin(cost: CostAggregate, night: KnownNight, days: int, platform: Platform)
    requires platform in night.channels && ChannelSustainable(cost, platform)
    requires LinesTake(cost, 0.0) <= 0.0
    ensures var channels := PriceNight(cost, night, days).channels;
            && platform in channels
            && ChannelKeepsMargin(cost, platform, channels[platform].suggestedPrice)
  {
    var i := NightInputs(cost, night.market, days);
    var rates := ChannelRates(night);
    var own := ChannelPrices.InputsOf(i, cost.percentageCosts, cost.netted, cost.commissionBase, platform,
                                      rates[platform]);
    NightInputsFields(cost, night.market, days, i);
    PublishedChannels(cost, night, days, i);
    ChannelFields(cost, i, platform, rates[platform]);
    TakenOfNothing(cost.percentageCosts, cost.netted);
    ChannelPrices.ChannelProfitIsGuaranteed(i, cost.percentageCosts, cost.netted, cost.commissionBase, rates, platform);
    ChannelMargin(cost, own, platform, PriceNight(cost, night, days).channels[platform].suggestedPrice);
  }

  lemma ChannelMargin(cost: CostAggregate, i: PriceInputs, platform: Platform, price: real)
    requires i.costPerNight == Round2(cost.fixedCost + cost.variableCost) && i.perBookingCost == cost.perBookingCost
    requires i.targetMargin == cost.targetMargin && i.p == ChannelRate(cost, platform)
    requires Surplus(i, cost.percentageCosts + [ChannelPrices.CommissionCost(platform, cost.commissionBase)],
                     cost.netted, price) >= -SlackWith(i, 0.005, price)
    ensures ChannelKeepsMargin(cost, platform, price)
  {
    OneNight(i);
    OverOne(cost.perBookingCost);
    SurplusIs(cost, i, ChannelPrices.CommissionCost(platform, cost.commissionBase), price, 1, cost.perBookingCost);
    SlackOfNight(cost, i, 1, price);
    ForOneNight(NightLeaves(cost, ChannelCommission(platform), price));
  }

  // ---------------------------------------------------------------- the references

  /** The rate, the attributes and the tier of the days left; this is before the apartment's discount. */
  function ReferenceAt(rate: real, attributeFactor: real, tier: BookingWindow.Tier): real {
    rate * attributeFactor * Round4(1.0 + tier.adjustment)
  }

  function Discounted(reference: real, discount: real): real {
    reference * (1.0 - discount)
  }

  lemma ReferenceOfInputs(i: PriceInputs, k: nat)
    requires BookingWindow.Selects(k, BookingWindow.DaysLeft(i.daysToArrival))
    ensures PropertyReference(i) == ReferenceAt(i.marketRate, i.attributeFactor, BookingWindow.TIERS[k])
    ensures MarketReference(i) == Discounted(PropertyReference(i), i.discount)
  {
    BookingWindow.FactorIsSelected(i.daysToArrival, k);
  }

  /** p shows this reference, with and without the discount; and how far its price stays below the market
      is told on these. */
  predicate ShowsReference(p: PriceCalculation, reference: real, discount: real) {
    && WithinHalfCent(p.propertyReference, reference)
    && WithinHalfCent(p.marketReference, Discounted(reference, discount))
    && -0.015 <= p.belowMarketBy - (p.propertyReference - p.suggestedPrice) <= 0.015
  }

  lemma ShownReference(i: PriceInputs, k: nat)
    requires BookingWindow.Selects(k, BookingWindow.DaysLeft(i.daysToArrival))
    ensures ShowsReference(DecidePrice(i, 1), ReferenceAt(i.marketRate, i.attributeFactor, BookingWindow.TIERS[k]),
                           i.discount)
  {
    ReferenceOfInputs(i, k);
    MinimumStayPrice.PublishedNight(i, 1);
    BelowMarket(i);
  }

  lemma BelowMarket(i: PriceInputs)
    ensures DecidePrice(i, 1).belowMarketBy == Round2(PropertyReference(i) - Arbitrate(i, 1).suggestedPrice)
  {
  }

  /** The published references are the market rate under the attributes and the tier the days left select,
      without and with the discount. */
  lemma PublishedReferences(cost: CostAggregate, night: KnownNight, days: int, k: nat)
    requires BookingWindow.Selects(k, BookingWindow.DaysLeft(days))
    ensures ShowsReference(PriceNight(cost, night, days).price,
                           ReferenceAt(night.market.avgNightlyRate, cost.attributeFactor, BookingWindow.TIERS[k]),
                           cost.discount)
  {
    var i := NightInputs(cost, night.market, days);
    NightInputsFields(cost, night.market, days, i);
    PublishedPrice(cost, night, days, i);
    ShownReference(i, k);
  }

  /** The same for every channel, on the channel's own rate; there is a price for every observed channel
      and for no other. */
  lemma ChannelReferences(cost: CostAggregate, night: KnownNight, days: int, k: nat, platform: Platform)
    requires BookingWindow.Selects(k, BookingWindow.DaysLeft(days)) && platform in night.channels
    ensures var channels := PriceNight(cost, night, days).channels;
            && channels.Keys == night.channels.Keys
            && var rate := night.channels[platform].avgNightlyRate;
               var reference := ReferenceAt(rate, cost.attributeFactor, BookingWindow.TIERS[k]);
               && channels[platform].marketRate == rate
               && WithinHalfCent(channels[platform].marketReference, Discounted(reference, cost.discount))
  {
    var i := NightInputs(cost, night.market, days);
    var rate := night.channels[platform].avgNightlyRate;
    var own := ChannelPrices.InputsOf(i, cost.percentageCosts, cost.netted, cost.commissionBase, platform, rate);
    NightInputsFields(cost, night.market, days, i);
    PublishedChannels(cost, night, days, i);
    ChannelFields(cost, i, platform, rate);
    ShownReference(own, k);
    ChannelEntry(i, ChannelRates(night), cost, platform, own);
  }

  lemma ChannelEntry(i: PriceInputs, rates: map<Platform, real>, cost: CostAggregate, platform: Platform,
                     own: PriceInputs)
    requires platform in rates
    requires own == ChannelPrices.InputsOf(i, cost.percentageCosts, cost.netted, cost.commissionBase, platform,
                                           rates[platform])
    ensures var matrix := ChannelMatrix(rates, i, TotalRate(cost.percentageCosts),
                                        NettedRevenueBaseAmount(cost.commissionBase, cost.netted));
            && matrix.Keys == rates.Keys
            && matrix[platform].marketRate == rates[platform]
            && matrix[platform].marketReference == DecidePrice(own, 1).marketReference
  {
  }

  // ---------------------------------------------------------------- the other figures

  lemma NettingOfNight(cost: CostAggregate, netting: real)
    requires netting == NettingEur(AllPercentageCosts(cost), cost.netted)
    ensures var terms := |cost.percentageCosts| + 1;
            var exact := -LinesTake(cost, 0.0) - CommissionTakes(cost, cost.commissionPct, 0.0);
            -0.005 * terms as real <= netting - exact <= 0.005 * terms as real
  {
    var pcs := AllPercentageCosts(cost);
    NettingError(pcs, cost.netted);
    ChargedSplits(pcs, cost.netted, 0.0);
    ChargedWithCommission(cost, PercentageCost(OwnerCommission, cost.commissionPct, Some(cost.commissionBase)), 0.0);
  }

  lemma PublishedInputs(cost: CostAggregate, night: KnownNight, days: int, i: PriceInputs)
    requires i == NightInputs(cost, night.market, days)
    ensures PriceNight(cost, night, days).p == i.p && PriceNight(cost, night, days).netting == i.netting
    ensures PriceNight(cost, night, days).costPerNight == i.costPerNight
  {
  }

  /** The night's rate, cost and netting as the decision shows them. */
  lemma PublishedRates(cost: CostAggregate, night: KnownNight, days: int)
    ensures var p := PriceNight(cost, night, days);
            && p.p == NightRate(cost)
            && WithinHalfCent(p.costPerNight, cost.fixedCost + cost.variableCost)
            && var terms := |cost.percentageCosts| + 1;
               var exact := -LinesTake(cost, 0.0) - CommissionTakes(cost, cost.commissionPct, 0.0);
               -0.005 * terms as real <= p.netting - exact <= 0.005 * terms as real
  {
    var i := NightInputs(cost, night.market, days);
    NightInputsFields(cost, night.market, days, i);
    PublishedInputs(cost, night, days, i);
    NettingOfNight(cost, i.netting);
  }

  /** The margin shown is that of the price over this cost. */
  predicate ShowsMargin(margin: real, price: real, costOfNight: real) {
    -0.00005 * Abs(costOfNight) - 0.005 <= (1.0 + margin) * costOfNight - price <= 0.00005 * Abs(costOfNight) + 0.005
  }

  lemma MarginOf(price: real, costOfNight: real, margin: real)
    requires costOfNight != 0.0 && margin == Round4(price / costOfNight - 1.0)
    ensures -0.00005 * Abs(costOfNight) <= (1.0 + margin) * costOfNight - price <= 0.00005 * Abs(costOfNight)
  {
    var exact := price / costOfNight - 1.0;
    assert (1.0 + exact) * costOfNight == price by { assert (price / costOfNight) * costOfNight == price; }
    RateErrorOn(costOfNight, margin - exact);
    RateErrorOn(-costOfNight, margin - exact);
    assert (margin - exact) * costOfNight == (1.0 + margin) * costOfNight - (1.0 + exact) * costOfNight;
  }

  lemma MarginAgainst(unrounded: real, price: real, costOfNight: real, margin: real)
    requires costOfNight != 0.0 && margin == Round4(unrounded / costOfNight - 1.0) && price == Round2(unrounded)
    ensures ShowsMargin(margin, price, costOfNight)
  {
    MarginOf(unrounded, costOfNight, margin);
  }

  /** The effective margin of every stay length is over that stay's cost of a night, the booking's cost spread
      over its nights. */
  lemma EffectiveMargin(i: PriceInputs, nights: int)
    requires nights > 0
    ensures var costOfNight := i.costPerNight + i.perBookingCost / nights as real;
            var candidate := LosCandidateFor(i, nights);
            && candidate.stayLength == nights
            && (costOfNight != 0.0 ==> ShowsMargin(candidate.effectiveMargin, candidate.suggestedPrice, costOfNight))
            && (candidate.floorPolicy.Hard? <==> i.targetMargin == 0.0)
  {
    var costOfNight := CostPerNight(i, nights);
    var unrounded := Arbitrate(i, nights).suggestedPrice;
    CandidateShows(i, nights, unrounded, costOfNight);
    if costOfNight != 0.0 {
      MarginAgainst(unrounded, LosCandidateFor(i, nights).suggestedPrice, costOfNight,
                    LosCandidateFor(i, nights).effectiveMargin);
    }
  }

  lemma CandidateShows(i: PriceInputs, nights: int, unrounded: real, costOfNight: real)
    requires nights > 0 && unrounded == Arbitrate(i, nights).suggestedPrice && costOfNight == CostPerNight(i, nights)
    ensures var candidate := LosCandidateFor(i, nights);
            && candidate.stayLength == nights && candidate.suggestedPrice == Round2(unrounded)
            && (candidate.floorPolicy.Hard? <==> i.targetMargin == 0.0)
            && (costOfNight != 0.0 ==> candidate.effectiveMargin == Round4(unrounded / costOfNight - 1.0))
  {
  }

  /** At the break-even price a night's cost is exactly what the percentage costs leave of it. */
  lemma BreakEven(i: PriceInputs, left: real, need: real)
    requires left == 1.0 - i.p && left > 0.0 && need == i.costPerNight + i.perBookingCost - i.netting
    ensures AllocationCorrection.WithinHalfCents(DecidePrice(i, 1).breakEvenRevenue * left, need, left)
  {
    BreakEvenShown(i, need, left);
    AllocationCorrection.SpreadErrorReal(need, left, DecidePrice(i, 1).breakEvenRevenue);
  }

  lemma BreakEvenShown(i: PriceInputs, need: real, left: real)
    requires need == i.costPerNight + i.perBookingCost - i.netting && left == 1.0 - i.p && left > 0.0
    ensures DecidePrice(i, 1).breakEvenRevenue == CostAggregation.Share(need, left)
  {
    assert CostPerNight(i, 1) == i.costPerNight + i.perBookingCost;
  }

  // ---------------------------------------------------------------- the minimum stay

  /** The k-th stay of the published matrix is recommended: it is the first that is not driven above the
      property reference, its reservation is priced at its price for all its nights, and costs all its nights
      and one booking. */
  ghost predicate IsRecommended(p: Pricing, perBookingCost: real, k: int) {
    && 0 <= k < |p.losMatrix| && p.minimumStay.recommended == Some(p.losMatrix[k].stayLength)
    && !p.losMatrix[k].rule.MinimumProfitablePrice?
    && (forall j :: 0 <= j < k ==> p.losMatrix[j].rule.MinimumProfitablePrice?)
    && p.minimumStay.pricePerReservation == Some(ForNights(p.losMatrix[k].suggestedPrice, p.losMatrix[k].stayLength))
    && p.minimumStay.costPerReservation.Some?
    && WithinHalfCent(p.minimumStay.costPerReservation.value,
                      ForNights(p.costPerNight, p.losMatrix[k].stayLength) + perBookingCost)
  }

  /** One stay of the matrix is recommended, or none is and all are driven above the property reference. */
  ghost predicate RecommendsExactly(p: Pricing, perBookingCost: real) {
    || (exists k :: IsRecommended(p, perBookingCost, k))
    || (p.minimumStay.recommended.None?
        && forall k :: 0 <= k < |p.losMatrix| ==> p.losMatrix[k].rule.MinimumProfitablePrice?)
  }

  lemma StayLengthsAre()
    ensures |LOS_CANDIDATES| == 5 && forall k: nat :: k < 5 ==> LOS_CANDIDATES[k] == StayLength(k)
    ensures forall j: nat, k: nat :: j < k < 5 ==> StayLength(j) < StayLength(k)
  {
  }

  lemma EntryClears(i: PriceInputs, k: nat)
    requires k < 5
    ensures |MatrixOf(i)| == 5 && MatrixOf(i)[k] == LosCandidateFor(i, StayLength(k))
    ensures MatrixOf(i)[k].rule.MinimumProfitablePrice? <==> !LengthOfStay.Clears(i, StayLength(k))
  {
    StayLengthsAre();
    LengthOfStay.ClearsByRule(i, StayLength(k));
  }

  lemma NotShorter(i: PriceInputs, k: nat)
    requires k < 5 && (StayOf(i).recommended.None? || StayLength(k) < StayOf(i).recommended.value)
    ensures |MatrixOf(i)| == 5 && MatrixOf(i)[k].rule.MinimumProfitablePrice?
  {
    StayLengthsAre();
    assert LOS_CANDIDATES[k] in LOS_CANDIDATES;
    LengthOfStay.NothingShorterClears(i, LOS_CANDIDATES, StayLength(k));
    EntryClears(i, k);
  }

  lemma RecommendedEntry(i: PriceInputs) returns (k: nat)
    requires StayOf(i).recommended.Some?
    ensures k < 5 && |MatrixOf(i)| == 5 && MatrixOf(i)[k].stayLength == StayLength(k)
    ensures StayOf(i).recommended == Some(StayLength(k)) && !MatrixOf(i)[k].rule.MinimumProfitablePrice?
    ensures StayOf(i).pricePerReservation == Some(ForNights(MatrixOf(i)[k].suggestedPrice, StayLength(k)))
    ensures StayOf(i).costPerReservation.Some?
    ensures WithinHalfCent(StayOf(i).costPerReservation.value,
                           ForNights(i.costPerNight, StayLength(k)) + i.perBookingCost)
  {
    LengthOfStay.RecommendedReservation(i, LOS_CANDIDATES);
    StayLengthsAre();
    k :| k < 5 && LOS_CANDIDATES[k] == StayOf(i).recommended.value;
    EntryClears(i, k);
    var candidate := MinimumStayPrice.CandidateFigures(i, StayLength(k));
    MinimumStayPrice.TotalIsExact(candidate);
  }

  /** The minimum stay published with the matrix is read off it. */
  lemma PublishedRecommendation(cost: CostAggregate, night: KnownNight, days: int)
    ensures RecommendsExactly(PriceNight(cost, night, days), cost.perBookingCost)
  {
    var i := NightInputs(cost, night.market, days);
    var p := PriceNight(cost, night, days);
    NightInputsFields(cost, night.market, days, i);
    PublishedMatrix(cost, night, days, i);
    PublishedStay(cost, night, days, i);
    PublishedInputs(cost, night, days, i);
    RecommendsFrom(p, i);
  }

  lemma RecommendsFrom(p: Pricing, i: PriceInputs)
    requires p.losMatrix == MatrixOf(i) && p.minimumStay == StayOf(i) && p.costPerNight == i.costPerNight
    ensures RecommendsExactly(p, i.perBookingCost)
  {
    if p.minimumStay.recommended.None? {
      forall k: nat | k < 5 ensures |p.losMatrix| == 5 && p.losMatrix[k].rule.MinimumProfitablePrice? {
        NotShorter(i, k);
      }
    } else {
      var k := RecommendedEntry(i);
      StayLengthsAre();
      forall j: nat | j < k ensures p.losMatrix[j].rule.MinimumProfitablePrice? {
        NotShorter(i, j);
      }
      assert IsRecommended(p, i.perBookingCost, k);
    }
  }

  // ---------------------------------------------------------------- all of it

  /** Every stay of the matrix, the single night first, leaves the margin on these costs. */
  ghost predicate StaysKeepMargin(p: Pricing, cost: CostAggregate) {
    && KeepsMargin(cost, p.price.suggestedPrice, 1)
    && |p.losMatrix| == 5
    && forall k: nat :: k < 5 ==>
         p.losMatrix[k].stayLength == StayLength(k) && KeepsMargin(cost, p.losMatrix[k].suggestedPrice, StayLength(k))
  }

  ghost predicate ChannelsKeepMargin(p: Pricing, cost: CostAggregate) {
    forall platform :: platform in p.channels && ChannelSustainable(cost, platform) ==>
                         ChannelKeepsMargin(cost, platform, p.channels[platform].suggestedPrice)
  }

  /** The references are those of the market rate, of each channel's own rate for a channel. */
  ghost predicate ReferencesAre(p: Pricing, cost: CostAggregate, night: KnownNight, tier: BookingWindow.Tier) {
    && ShowsReference(p.price, ReferenceAt(night.market.avgNightlyRate, cost.attributeFactor, tier), cost.discount)
    && p.channels.Keys == night.channels.Keys
    && forall platform :: platform in p.channels ==>
         var reference := ReferenceAt(night.channels[platform].avgNightlyRate, cost.attributeFactor, tier);
         WithinHalfCent(p.channels[platform].marketReference, Discounted(reference, cost.discount))
  }

  /** The pricing of a night in the figures of its aggregate and its market. */
  ghost predicate PricedFrom(p: Pricing, cost: CostAggregate, night: KnownNight, days: int) {
    && p.p == NightRate(cost)
    && RecommendsExactly(p, cost.perBookingCost)
    && (Sustainable(cost) ==> StaysKeepMargin(p, cost))
    && (LinesTake(cost, 0.0) <= 0.0 ==> ChannelsKeepMargin(p, cost))
    && (forall k: nat :: BookingWindow.Selects(k, BookingWindow.DaysLeft(days)) ==>
          ReferencesAre(p, cost, night, BookingWindow.TIERS[k]))
  }

  lemma StaysArePriced(cost: CostAggregate, night: KnownNight, days: int)
    requires Sustainable(cost)
    ensures StaysKeepMargin(PriceNight(cost, night, days), cost)
  {
    PublishedNightKeepsTheMargin(cost, night, days);
    PublishedStaysKeepTheMargin(cost, night, days, 0);
    forall k: nat | k < 5
      ensures PriceNight(cost, night, days).losMatrix[k].stayLength == StayLength(k)
      ensures KeepsMargin(cost, PriceNight(cost, night, days).losMatrix[k].suggestedPrice, StayLength(k))
    {
      PublishedStaysKeepTheMargin(cost, night, days, k);
    }
  }

  lemma ChannelsAreObserved(cost: CostAggregate, night: KnownNight, days: int)
    ensures PriceNight(cost, night, days).channels.Keys == night.channels.Keys
  {
    PublishedChannels(cost, night, days, NightInputs(cost, night.market, days));
  }

  lemma ChannelsArePriced(cost: CostAggregate, night: KnownNight, days: int)
    requires LinesTake(cost, 0.0) <= 0.0
    ensures ChannelsKeepMargin(PriceNight(cost, night, days), cost)
  {
    var channels := PriceNight(cost, night, days).channels;
    ChannelsAreObserved(cost, night, days);
    forall platform | platform in channels && ChannelSustainable(cost, platform)
      ensures ChannelKeepsMargin(cost, platform, channels[platform].suggestedPrice)
    {
      PublishedChannelKeepsTheMargin(cost, night, days, platform);
    }
  }

  lemma ReferencesArePriced(cost: CostAggregate, night: KnownNight, days: int, k: nat)
    requires BookingWindow.Selects(k, BookingWindow.DaysLeft(days))
    ensures ReferencesAre(PriceNight(cost, night, days), cost, night, BookingWindow.TIERS[k])
  {
    var channels := PriceNight(cost, night, days).channels;
    PublishedReferences(cost, night, days, k);
    ChannelsAreObserved(cost, night, days);
    forall platform | platform in channels
      ensures WithinHalfCent(channels[platform].marketReference,
                             Discounted(ReferenceAt(night.channels[platform].avgNightlyRate, cost.attributeFactor,
                                                    BookingWindow.TIERS[k]), cost.discount))
    {
      ChannelReferences(cost, night, days, k, platform);
    }
  }

  /** Every night is priced from the figures of its aggregate and its market. */
  lemma NightIsPricedFrom(cost: CostAggregate, night: KnownNight, days: int)
    ensures PricedFrom(PriceNight(cost, night, days), cost, night, days)
  {
    PublishedRates(cost, night, days);
    PublishedRecommendation(cost, night, days);
    if Sustainable(cost) {
      StaysArePriced(cost, night, days);
    }
    if LinesTake(cost, 0.0) <= 0.0 {
      ChannelsArePriced(cost, night, days);
    }
    forall k: nat | BookingWindow.Selects(k, BookingWindow.DaysLeft(days))
      ensures ReferencesAre(PriceNight(cost, night, days), cost, night, BookingWindow.TIERS[k])
    {
      ReferencesArePriced(cost, night, days, k);
    }
  }

  // ---------------------------------------------------------------- instances

  /** 15% of the revenue to the OTA on a payment line, 20% of it to the owner. */
  const COMMISSIONED := CostAggregate("flat", 40.0, 20.0, 5.0, 1800.0, 30, 1, 1, 30, 0.0, 0.0, 1, 0, 1.0, 0.2,
                                      TotalRevenue, [PercentageCost(OtaFee, 0.15, Some(TotalRevenue))],
                                      NettedCosts(0.0, 0.0, 0.0, 0.0), 0, 0, 0.0, [])

  /** Both percentages are in the rate, and a cost of 65 is recovered by 100. */
  lemma LineAndCommissionAdd(night: KnownNight, days: int)
    ensures PriceNight(COMMISSIONED, night, days).p == 0.35
    ensures PriceNight(COMMISSIONED, night, days).price.minimumPrice == 100.0
  {
    var i := NightInputs(COMMISSIONED, night.market, days);
    InputsOfCommissioned(night.market, days, i);
    PublishedInputs(COMMISSIONED, night, days, i);
    PublishedPrice(COMMISSIONED, night, days, i);
    FloorOfCommissioned(night.market, days, i);
  }

  lemma InputsOfCommissioned(market: MarketSnapshot, days: int, i: PriceInputs)
    requires i == NightInputs(COMMISSIONED, market, days)
    ensures i.p == 0.35 && i.netting == 0.0 && i.targetMargin == 0.0
    ensures i.costPerNight == 60.0 && i.perBookingCost == 5.0
  {
    NightInputsFields(COMMISSIONED, market, days, i);
    RateOfCommissioned();
    NettingOfCommissioned();
    CostOfCommissioned();
  }

  lemma FloorOfCommissioned(market: MarketSnapshot, days: int, i: PriceInputs)
    requires i == NightInputs(COMMISSIONED, market, days)
    ensures DecidePrice(i, 1).minimumPrice == 100.0
  {
    InputsOfCommissioned(market, days, i);
    FloorOf(i, 65.0, 0.65);
    MinimumStayPrice.PublishedNight(i, 1);
    NearestOfInt(10000);
  }

  lemma RateOfCommissioned()
    ensures NightRate(COMMISSIONED) == 0.35
  {
    var pcs := COMMISSIONED.percentageCosts;
    assert pcs[..0] == [];
    assert Sum(pcs, RateOf) == 0.15;
    NearestOfInt(3500);
  }

  lemma CostOfCommissioned()
    ensures Round2(60.0) == 60.0
  {
    NearestOfInt(6000);
  }

  lemma NettingOfCommissioned()
    ensures NettingEur(AllPercentageCosts(COMMISSIONED), COMMISSIONED.netted) == 0.0
  {
    var pcs := AllPercentageCosts(COMMISSIONED);
    NearestOfInt(0);
    forall pc | pc in pcs ensures NettingTerm(COMMISSIONED.netted)(pc) == 0.0 {
      assert NetOf(pc, COMMISSIONED.netted) == 0.0;
    }
    SumZero(pcs, NettingTerm(COMMISSIONED.netted));
  }

  lemma FloorOf(i: PriceInputs, need: real, d: real)
    requires d == 1.0 - i.p - i.targetMargin && d > 0.0 && need == i.costPerNight + i.perBookingCost - i.netting
    ensures FloorPrice(i, 1) * d == need
  {
    assert CostPerNight(i, 1) == i.costPerNight + i.perBookingCost;
  }

  /** The commissions of the three channels, by what a price of 100 leaves. */
  lemma ChannelCommissions(i: PriceInputs, rate: real)
    requires i.perBookingCost == 0.0 && i.targetMargin == 0.0
    ensures i.costPerNight == 88.0 ==> FloorPrice(ChannelInputs(i, Airbnb, rate, 0.0, 0.0), 1) == 100.0
    ensures i.costPerNight == 85.0 ==> FloorPrice(ChannelInputs(i, Booking, rate, 0.0, 0.0), 1) == 100.0
    ensures i.costPerNight == 92.0 ==> FloorPrice(ChannelInputs(i, Vrbo, rate, 0.0, 0.0), 1) == 100.0
  {
    NearestOfInt(0);
    FloorOf(ChannelInputs(i, Airbnb, rate, 0.0, 0.0), i.costPerNight, 0.88);
    FloorOf(ChannelInputs(i, Booking, rate, 0.0, 0.0), i.costPerNight, 0.85);
    FloorOf(ChannelInputs(i, Vrbo, rate, 0.0, 0.0), i.costPerNight, 0.92);
  }
}
