/** Percentage costs and their netting, the margin a suggested price really leaves, and when the
    dashboard's price status agrees with the engine's rule. */
module ProfitGuarantee {
  import opened Rounding
  import opened Listings
  import opened PricingEngine
  import LengthOfStay

  // ---------------------------------------------------------------- netting

  /** The amount this percentage cost is not charged on; a missing base means total revenue. */
  function NetOf(pc: PercentageCost, costs: NettedCosts): real {
    NettedRevenueBaseAmount(if pc.revenueBase.Some? then pc.revenueBase.value else TotalRevenue, costs)
  }

  function RateOf(pc: PercentageCost): real { pc.rate }

  /** The rates of all percentage costs, as the event and the floor use them. */
  function TotalRate(pcs: seq<PercentageCost>): real {
    Round4(Sum(pcs, RateOf))
  }

  function Netted(pc: PercentageCost, costs: NettedCosts): real {
    Round2(pc.rate * NetOf(pc, costs))
  }

  function NettingTerm(costs: NettedCosts): PercentageCost -> real {
    (pc: PercentageCost) => Netted(pc, costs)
  }

  function NettingEur(pcs: seq<PercentageCost>, costs: NettedCosts): real {
    Round2(Sum(pcs, NettingTerm(costs)))
  }

  method AccumulateNetting(pcs: seq<PercentageCost>, costs: NettedCosts) returns (netting: real)
    ensures netting == NettingEur(pcs, costs)
  {
    netting := 0.0;
    for k := 0 to |pcs|
      invariant netting == Sum(pcs[..k], NettingTerm(costs))
    {
      assert pcs[..k + 1][..k] == pcs[..k] && pcs[..k + 1][k] == pcs[k];
      netting := netting + Netted(pcs[k], costs);
    }
    assert pcs[..|pcs|] == pcs;
    netting := Round2(netting);
  }

  lemma {:induction false} SumOfCents<T>(items: seq<T>, value: T -> real)
    requires forall x :: x in items ==> IsCents(value(x))
    ensures IsCents(Sum(items, value))
  {
    if items == [] {
      assert (0.0 * 100.0).Floor == 0;
    } else {
      assert items == items[..|items| - 1] + [items[|items| - 1]];
      SumOfCents(items[..|items| - 1], value);
      CentsAdd(Sum(items[..|items| - 1], value), value(items[|items| - 1]));
    }
  }

  function ExactNetted(pc: PercentageCost, costs: NettedCosts): real {
    pc.rate * NetOf(pc, costs)
  }

  function ExactTerm(costs: NettedCosts): PercentageCost -> real {
    (pc: PercentageCost) => ExactNetted(pc, costs)
  }

  lemma TermError(pc: PercentageCost, costs: NettedCosts)
    ensures IsCents(NettingTerm(costs)(pc))
    ensures -0.005 <= NettingTerm(costs)(pc) - ExactTerm(costs)(pc) <= 0.005
  {
    Round2IsCents(ExactNetted(pc, costs));
  }

  /** Rounding each term is the only error of the netting: the sum of cents is already cents. */
  lemma NettingError(pcs: seq<PercentageCost>, costs: NettedCosts)
    ensures -0.005 * |pcs| as real <= NettingEur(pcs, costs) - Sum(pcs, ExactTerm(costs)) <= 0.005 * |pcs| as real
  {
    var term, exact, half := NettingTerm(costs), ExactTerm(costs), (pc: PercentageCost) => 0.005;
    forall pc | pc in pcs ensures IsCents(term(pc)) && -half(pc) <= term(pc) - exact(pc) <= half(pc) {
      TermError(pc, costs);
    }
    SumOfCents(pcs, term);
    Round2OfCents(Sum(pcs, term));
    SumWithin(pcs, term, exact, half);
    SumConstant(pcs, half, 0.005);
  }

  // ---------------------------------------------------------------- what a price leaves

  function Charge(pc: PercentageCost, costs: NettedCosts, price: real): real {
    pc.rate * (price - NetOf(pc, costs))
  }

  function ChargeAt(costs: NettedCosts, price: real): PercentageCost -> real {
    (pc: PercentageCost) => Charge(pc, costs, price)
  }

  /** What the percentage costs take from a price, each on its own netted base. */
  function Charged(pcs: seq<PercentageCost>, costs: NettedCosts, price: real): real {
    Sum(pcs, ChargeAt(costs, price))
  }

  function GrossCharge(price: real): PercentageCost -> real {
    (pc: PercentageCost) => RateOf(pc) * price
  }

  lemma ChargeSplits(pc: PercentageCost, costs: NettedCosts, price: real)
    ensures GrossCharge(price)(pc) == ChargeAt(costs, price)(pc) + ExactTerm(costs)(pc)
  {
    Distribute(pc.rate, price, NetOf(pc, costs));
  }

  lemma Distribute(rate: real, x: real, y: real)
    ensures rate * (x - y) == rate * x - rate * y
  {
  }

  lemma ChargedSplits(pcs: seq<PercentageCost>, costs: NettedCosts, price: real)
    ensures Charged(pcs, costs, price) == Sum(pcs, RateOf) * price - Sum(pcs, ExactTerm(costs))
  {
    forall pc | pc in pcs ensures GrossCharge(price)(pc) == ChargeAt(costs, price)(pc) + ExactTerm(costs)(pc) {
      ChargeSplits(pc, costs, price);
    }
    SumScaled(pcs, RateOf, price, GrossCharge(price));
    SumAdds(pcs, ChargeAt(costs, price), ExactTerm(costs), GrossCharge(price));
  }

  /** i prices one night with exactly these percentage costs. */
  predicate PricesWith(i: PriceInputs, pcs: seq<PercentageCost>, costs: NettedCosts) {
    i.p == TotalRate(pcs) && i.netting == NettingEur(pcs, costs)
  }

  /** The price, less its percentage costs and margin at the rounded rates, recovers the netted cost. */
  predicate CoversNeed(i: PriceInputs, price: real) {
    price * (1.0 - i.p - i.targetMargin) >= CostPerNight(i, 1) - i.netting
  }

  /** The unrounded price covers the floor, whichever rule fired. */
  lemma PriceCoversFloor(i: PriceInputs)
    requires i.p + i.targetMargin < 1.0
    ensures CoversNeed(i, Arbitrate(i, 1).suggestedPrice)
  {
    var d := 1.0 - i.p - i.targetMargin;
    var numerator := CostPerNight(i, 1) - i.netting;
    var floor := FloorPrice(i, 1);
    var price := Arbitrate(i, 1).suggestedPrice;
    ScaledBound(numerator, d, floor, price);
  }

  lemma ScaledBound(numerator: real, d: real, floor: real, price: real)
    requires d > 0.0 && floor == numerator / d && price >= floor
    ensures price * d >= numerator
  {
    assert floor * d == numerator;
    assert (price - floor) * d >= 0.0;
  }

  /** How far rounding the rates, the netting terms and the price can eat into the margin. */
  function RoundingSlack(i: PriceInputs, pcs: seq<PercentageCost>, price: real): real {
    SlackWith(i, 0.005 * |pcs| as real, price)
  }

  function SlackWith(i: PriceInputs, nettingSlack: real, price: real): real {
    0.00005 * Abs(price) + nettingSlack + 0.005 * (1.0 - i.p - i.targetMargin)
  }

  lemma ProductNotNegative(x: real, y: real)
    requires x >= 0.0 && y >= 0.0
    ensures x * y >= 0.0
  {
  }

  /** The error of a rate within half a unit of its fourth digit, applied to a price. */
  lemma RateErrorOn(s: real, gap: real)
    requires -0.00005 <= gap <= 0.00005
    ensures gap * s >= -0.00005 * Abs(s)
  {
    if s >= 0.0 {
      ProductNotNegative(gap + 0.00005, s);
    } else {
      ProductNotNegative(0.00005 - gap, -s);
    }
  }

  lemma SlackArithmetic(s: real, u: real, totalRate: real, p: real, m: real, cost: real,
                        netting: real, exactNetting: real, n: real)
    requires p + m < 1.0
    requires u * (1.0 - p - m) >= cost - netting
    requires u - 0.005 <= s
    requires -0.00005 <= p - totalRate <= 0.00005
    requires netting - exactNetting <= n
    ensures s - (totalRate * s - exactNetting) - cost >= m * s - (0.00005 * Abs(s) + n + 0.005 * (1.0 - p - m))
  {
    var d := 1.0 - p - m;
    ProductNotNegative(s - u + 0.005, d);
    RateErrorOn(s, p - totalRate);
    assert (s - u + 0.005) * d == s * d - u * d + 0.005 * d;
    assert s * d == s - p * s - m * s;
    assert (p - totalRate) * s == p * s - totalRate * s;
  }

  /** What a price leaves over the target margin on it. */
  function Surplus(i: PriceInputs, pcs: seq<PercentageCost>, costs: NettedCosts, price: real): real {
    SurplusAfter(i, Charged(pcs, costs, price), price)
  }

  function SurplusAfter(i: PriceInputs, charged: real, price: real): real {
    price - charged - CostPerNight(i, 1) - MarginOn(i.targetMargin, price)
  }

  function MarginOn(margin: real, price: real): real {
    margin * price
  }

  /** The price, give or take its own rounding, recovers the netted cost of the night. */
  predicate Recovers(i: PriceInputs, price: real) {
    CoversNeed(i, price + 0.005)
  }

  lemma LargerCovers(i: PriceInputs, lower: real, higher: real)
    requires i.p + i.targetMargin < 1.0 && CoversNeed(i, lower) && lower <= higher
    ensures CoversNeed(i, higher)
  {
    var d := 1.0 - i.p - i.targetMargin;
    ProductNotNegative(higher - lower, d);
    assert (higher - lower) * d == higher * d - lower * d;
  }

  lemma RoundedRecovers(i: PriceInputs, unrounded: real, rounded: real)
    requires i.p + i.targetMargin < 1.0 && CoversNeed(i, unrounded) && rounded == Round2(unrounded)
    ensures Recovers(i, rounded)
  {
    LargerCovers(i, unrounded, rounded + 0.005);
  }

  lemma PublishedIsRounded(i: PriceInputs)
    ensures DecidePrice(i, 1).suggestedPrice == Round2(Arbitrate(i, 1).suggestedPrice)
  {
  }

  lemma PublishedRecovers(i: PriceInputs)
    requires i.p + i.targetMargin < 1.0
    ensures Recovers(i, DecidePrice(i, 1).suggestedPrice)
  {
    PriceCoversFloor(i);
    PublishedIsRounded(i);
    RoundedRecovers(i, Arbitrate(i, 1).suggestedPrice, DecidePrice(i, 1).suggestedPrice);
  }

  lemma SurplusFrom(i: PriceInputs, price: real, charged: real, totalRate: real, exactNetting: real, slack: real)
    requires i.p + i.targetMargin < 1.0 && Recovers(i, price)
    requires charged == totalRate * price - exactNetting
    requires -0.00005 <= i.p - totalRate <= 0.00005 && i.netting - exactNetting <= slack
    ensures SurplusAfter(i, charged, price) >= -SlackWith(i, slack, price)
  {
    SlackArithmetic(price, price + 0.005, totalRate, i.p, i.targetMargin, CostPerNight(i, 1), i.netting, exactNetting,
                    slack);
  }

  lemma ErrorsAreSmall(i: PriceInputs, pcs: seq<PercentageCost>, costs: NettedCosts)
    requires PricesWith(i, pcs, costs)
    ensures -0.00005 <= i.p - Sum(pcs, RateOf) <= 0.00005
    ensures i.netting - Sum(pcs, ExactTerm(costs)) <= 0.005 * |pcs| as real
  {
    NettingError(pcs, costs);
  }

  lemma RecoveringPriceLeavesMargin(i: PriceInputs, pcs: seq<PercentageCost>, costs: NettedCosts, price: real)
    requires PricesWith(i, pcs, costs) && i.p + i.targetMargin < 1.0 && Recovers(i, price)
    ensures Surplus(i, pcs, costs, price) >= -RoundingSlack(i, pcs, price)
  {
    ErrorsAreSmall(i, pcs, costs);
    ChargedSplits(pcs, costs, price);
    SurplusFrom(i, price, Charged(pcs, costs, price), Sum(pcs, RateOf), Sum(pcs, ExactTerm(costs)),
                0.005 * |pcs| as real);
  }

  /** The profit guarantee: what the published price leaves after the percentage costs, each charged
      on its own base, and the full cost of the night is the target margin on the price, up to the
      explicit rounding slack. */
  lemma ProfitIsGuaranteed(i: PriceInputs, pcs: seq<PercentageCost>, costs: NettedCosts)
    requires PricesWith(i, pcs, costs) && i.p + i.targetMargin < 1.0
    ensures var price := DecidePrice(i, 1).suggestedPrice;
            Surplus(i, pcs, costs, price) >= -RoundingSlack(i, pcs, price)
  {
    PublishedRecovers(i);
    RecoveringPriceLeavesMargin(i, pcs, costs, DecidePrice(i, 1).suggestedPrice);
  }

  // ---------------------------------------------------------------- the dashboard's status

  datatype PriceStatus = PriceBelowCost | PriceBelowProfit | PriceAboveMarket | Competitive

  function StatusOf(suggestedPrice: real, totalCost: real, targetMargin: real, propertyReference: real): PriceStatus {
    if suggestedPrice < totalCost then PriceBelowCost
    else if suggestedPrice < totalCost * (1.0 + targetMargin) then PriceBelowProfit
    else if suggestedPrice > propertyReference then PriceAboveMarket
    else Competitive
  }

  /** The status of the unrounded price. */
  function EngineStatus(i: PriceInputs): PriceStatus {
    StatusOf(Arbitrate(i, 1).suggestedPrice, CostPerNight(i, 1), i.targetMargin, PropertyReference(i))
  }

  predicate SoundInputs(i: PriceInputs) {
    && CostPerNight(i, 1) > 0.0
    && i.targetMargin >= 0.0
    && i.p + i.targetMargin < 1.0
    && i.discount >= 0.0
    && PropertyReference(i) >= 0.0
  }

  /** The largest netting the floor can bear without falling under cost * (1 + margin). */
  function NettingLimit(i: PriceInputs): real {
    CostPerNight(i, 1) * (i.p + i.targetMargin * (i.p + i.targetMargin))
  }

  lemma FloorAgainst(numerator: real, d: real, target: real)
    requires d > 0.0
    ensures numerator / d >= target <==> numerator >= target * d
  {
    var q := numerator / d;
    assert q * d == numerator;
    if q >= target { assert (q - target) * d >= 0.0; } else { assert (target - q) * d > 0.0; }
  }

  lemma ProfitTarget(c: real, p: real, m: real)
    ensures c * (1.0 + m) * (1.0 - p - m) == c - c * (p + m * (p + m))
  {
    assert (1.0 + m) * (1.0 - p - m) == 1.0 - (p + m * (p + m)) by {
      assert (1.0 + m) * (1.0 - p - m) == (1.0 - p - m) + m * (1.0 - p - m);
      assert m * (1.0 - p - m) == m - m * (p + m);
    }
    var k := (1.0 + m) * (1.0 - p - m);
    assert c * (1.0 + m) * (1.0 - p - m) == c * k;
  }

  /** The floor reaches cost * (1 + margin) exactly when the netting stays within its limit, and
      reaches cost exactly when the netting is at most cost * (p + margin). */
  lemma FloorReaches(i: PriceInputs)
    requires i.p + i.targetMargin < 1.0
    ensures FloorPrice(i, 1) >= CostPerNight(i, 1) * (1.0 + i.targetMargin) <==> i.netting <= NettingLimit(i)
    ensures FloorPrice(i, 1) >= CostPerNight(i, 1) <==> i.netting <= CostPerNight(i, 1) * (i.p + i.targetMargin)
  {
    var c, d := CostPerNight(i, 1), 1.0 - i.p - i.targetMargin;
    FloorAgainst(c - i.netting, d, c * (1.0 + i.targetMargin));
    FloorAgainst(c - i.netting, d, c);
    ProfitTarget(c, i.p, i.targetMargin);
    assert c * d == c - c * (i.p + i.targetMargin);
  }

  lemma StatusCase(price: real, cost: real, margin: real, target: real, floor: real, market: real, property: real)
    requires target == cost * (1.0 + margin) && cost >= 0.0 && margin >= 0.0 && market <= property
    requires price == ApplyGuardrails(floor, market, property).suggestedPrice
    ensures target >= cost
    ensures floor >= target ==>
              && !StatusOf(price, cost, margin, property).PriceBelowCost?
              && !StatusOf(price, cost, margin, property).PriceBelowProfit?
              && (StatusOf(price, cost, margin, property).PriceAboveMarket? <==>
                  ApplyGuardrails(floor, market, property).rule.MinimumProfitablePrice?)
  {
    assert cost * margin >= 0.0;
    LengthOfStay.GuardrailsCase(floor, market, property);
  }

  /** The status does not contradict the engine: neither below cost nor below profit, and above market
      exactly under minimum_profitable_price. */
  predicate Agrees(status: PriceStatus, rule: Rule) {
    && !status.PriceBelowCost?
    && !status.PriceBelowProfit?
    && (status.PriceAboveMarket? <==> rule.MinimumProfitablePrice?)
  }

  /** Within the netting limit the status of the unrounded price agrees with the engine's rule. */
  lemma StatusAgreesWithRule(i: PriceInputs)
    requires SoundInputs(i) && i.netting <= NettingLimit(i)
    ensures Agrees(EngineStatus(i), DecidePrice(i, 1).rule)
  {
    FloorReaches(i);
    LengthOfStay.MarketBelowProperty(i);
    StatusCase(Arbitrate(i, 1).suggestedPrice, CostPerNight(i, 1), i.targetMargin,
               CostPerNight(i, 1) * (1.0 + i.targetMargin), FloorPrice(i, 1), MarketReference(i), PropertyReference(i));
  }

  /** The inputs on another market. */
  function OnMarket(i: PriceInputs, rate: real): PriceInputs {
    i.(marketRate := rate)
  }

  predicate IsMarket(i: PriceInputs, rate: real) {
    rate >= 0.0 && PropertyReference(OnMarket(i, rate)) >= 0.0
  }

  lemma OnWorthlessMarket(i: PriceInputs)
    ensures PropertyReference(OnMarket(i, 0.0)) == 0.0 && MarketReference(OnMarket(i, 0.0)) == 0.0
    ensures IsMarket(i, 0.0)
  {
  }

  lemma OnlyTheMarketChanges(i: PriceInputs, rate: real)
    ensures FloorPrice(OnMarket(i, rate), 1) == FloorPrice(i, 1)
    ensures CostPerNight(OnMarket(i, rate), 1) == CostPerNight(i, 1)
  {
  }

  /** On every market the status of the unrounded price agrees with the engine's rule. */
  ghost predicate AgreesOnEveryMarket(i: PriceInputs) {
    forall rate :: IsMarket(i, rate) ==> Agrees(EngineStatus(OnMarket(i, rate)), DecidePrice(OnMarket(i, rate), 1).rule)
  }

  /** The limit is exact: the status of the unrounded price agrees with the rule on every market if and
      only if the netting respects it. */
  lemma NettingLimitIsExact(i: PriceInputs)
    requires SoundInputs(i)
    ensures i.netting <= NettingLimit(i) <==> AgreesOnEveryMarket(i)
  {
    if i.netting <= NettingLimit(i) {
      forall rate | IsMarket(i, rate)
        ensures Agrees(EngineStatus(OnMarket(i, rate)), DecidePrice(OnMarket(i, rate), 1).rule)
      {
        StatusAgreesWithRule(OnMarket(i, rate));
      }
    } else {
      OverLimitDisagrees(i);
      OnWorthlessMarket(i);
    }
  }

  /** Over the limit the price falls short where there is no market to hold it up. */
  lemma OverLimitDisagrees(i: PriceInputs)
    requires SoundInputs(i) && i.netting > NettingLimit(i)
    ensures EngineStatus(OnMarket(i, 0.0)).PriceBelowCost? || EngineStatus(OnMarket(i, 0.0)).PriceBelowProfit?
  {
    FloorReaches(i);
    OnlyTheMarketChanges(i, 0.0);
    OnWorthlessMarket(i);
    assert CostPerNight(i, 1) * (1.0 + i.targetMargin) > 0.0 by {
      assert CostPerNight(i, 1) * i.targetMargin >= 0.0;
    }
  }

  /** Netting no more than each rate's own share of the cost is within the limit. */
  lemma OwnShareIsWithinLimit(i: PriceInputs)
    requires SoundInputs(i) && i.p >= 0.0 && i.netting <= i.p * CostPerNight(i, 1)
    ensures i.netting <= NettingLimit(i)
  {
    var c, m := CostPerNight(i, 1), i.targetMargin;
    assert m * (i.p + m) >= 0.0;
    assert c * (m * (i.p + m)) >= 0.0;
    assert c * (i.p + m * (i.p + m)) == c * i.p + c * (m * (i.p + m));
  }

  /** On the published, rounded price: never below a cost that is whole cents. */
  lemma PublishedPriceCoversCost(i: PriceInputs)
    requires SoundInputs(i) && IsCents(CostPerNight(i, 1))
    requires i.netting <= CostPerNight(i, 1) * (i.p + i.targetMargin)
    ensures DecidePrice(i, 1).suggestedPrice >= CostPerNight(i, 1)
  {
    FloorReaches(i);
    LengthOfStay.MarketBelowProperty(i);
    LengthOfStay.GuardrailsCase(FloorPrice(i, 1), MarketReference(i), PropertyReference(i));
    Round2KeepsCentsBound(Arbitrate(i, 1).suggestedPrice, CostPerNight(i, 1));
  }
}
