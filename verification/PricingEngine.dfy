/** The layered pricing engine (libs/pricing-formulas): booking window, market, Break-Even and
    Profitable Floor, guardrails, the length-of-stay matrix, minimum stay, channels, viability.
    Money is `real`; rounding is Python's. */
module PricingEngine {
  import opened Wrappers
  import opened Rounding
  import opened Listings

  datatype Rule = MarketCompetitive | MinimumFloor | MinimumProfitablePrice
  datatype FloorPolicy = Hard | Soft
  datatype Platform = Airbnb | Booking | Vrbo
  datatype RevenueBase =
    | TotalRevenue
    | RevenueMinusOta
    | RevenueMinusOtaMinusCleaning
    | RevenueMinusOtaMinusCleaningMinusLaundry
    | RevenueMinusAllBookingCosts

  /** The concepts a cost definition may carry. */
  datatype Concept =
    | Electricity | Water | Gas | Internet | PmsSubscription | OtaFee | ChannelManager | OfficeRent
    | Cleaning | Laundry | Maintenance | Insurance | CommunityFee | OtherConcept | OwnerCommission

  /** One percentage cost: its rate and the revenue it is charged on. */
  datatype PercentageCost = PercentageCost(concept: Concept, rate: real, revenueBase: Option<RevenueBase>)

  /** The per-night amounts a revenue base may exclude. */
  datatype NettedCosts = NettedCosts(ota: real, cleaning: real, laundry: real, bookingScope: real)

  function NettedRevenueBaseAmount(base: RevenueBase, costs: NettedCosts): real {
    match base
    case TotalRevenue => 0.0
    case RevenueMinusOta => costs.ota
    case RevenueMinusOtaMinusCleaning => costs.ota + costs.cleaning
    case RevenueMinusOtaMinusCleaningMinusLaundry => costs.ota + costs.cleaning + costs.laundry
    case RevenueMinusAllBookingCosts => costs.bookingScope
  }

  function BookingWindowFactor(daysToArrival: int): (factor: real)
    ensures 0.92 <= factor <= 1.0
  {
    var days := if daysToArrival < 0 then 0 else daysToArrival;
    if days >= 45 then 1.0
    else if days >= 15 then 0.97
    else if days >= 3 then 1.0
    else if days >= 1 then 0.95
    else 0.92
  }

  function FloorPolicyFor(targetMargin: real): FloorPolicy {
    if targetMargin == 0.0 then Hard else Soft
  }

  datatype Guardrails = Guardrails(rule: Rule, suggestedPrice: real, belowMarketBy: real)

  function ApplyGuardrails(minimumPrice: real, marketReference: real, propertyReference: real): Guardrails {
    var rule :=
      if minimumPrice <= marketReference then MarketCompetitive
      else if minimumPrice <= propertyReference then MinimumFloor
      else MinimumProfitablePrice;
    var suggested := if rule.MarketCompetitive? then marketReference else minimumPrice;
    Guardrails(rule, suggested, propertyReference - suggested)
  }

  /** Everything decide_price reads except the stay length. */
  datatype PriceInputs = PriceInputs(
    costPerNight: real,
    perBookingCost: real,
    p: real,
    targetMargin: real,
    marketRate: real,
    discount: real,
    attributeFactor: real,
    netting: real,
    daysToArrival: int)

  datatype PriceCalculation = PriceCalculation(
    minimumPrice: real,
    breakEvenRevenue: real,
    profitableFloor: real,
    floorPolicy: FloorPolicy,
    attributeFactor: real,
    propertyReference: real,
    marketReference: real,
    rule: Rule,
    suggestedPrice: real,
    belowMarketBy: real,
    effectiveMargin: real)

  /** The cost one night must recover when the booking lasts stayLength nights. */
  function CostPerNight(i: PriceInputs, stayLength: int): real
    requires stayLength != 0
  {
    i.costPerNight + i.perBookingCost / stayLength as real
  }

  /** The enforced (unrounded) Profitable Floor. */
  function FloorPrice(i: PriceInputs, stayLength: int): real
    requires stayLength != 0
  {
    var denominator := 1.0 - i.p - i.targetMargin;
    if denominator != 0.0 then (CostPerNight(i, stayLength) - i.netting) / denominator else 0.0
  }

  function PropertyReference(i: PriceInputs): real {
    i.marketRate * i.attributeFactor * BookingWindowFactor(i.daysToArrival)
  }

  function MarketReference(i: PriceInputs): real {
    PropertyReference(i) * (1.0 - i.discount)
  }

  /** The arbitration on unrounded prices. */
  function Arbitrate(i: PriceInputs, stayLength: int): Guardrails
    requires stayLength != 0
  {
    ApplyGuardrails(FloorPrice(i, stayLength), MarketReference(i), PropertyReference(i))
  }

  function DecidePrice(i: PriceInputs, stayLength: int): PriceCalculation
    requires stayLength != 0
  {
    var cost := CostPerNight(i, stayLength);
    var breakEven := if i.p != 1.0 then (cost - i.netting) / (1.0 - i.p) else 0.0;
    var floor := FloorPrice(i, stayLength);
    var guardrails := Arbitrate(i, stayLength);
    var margin := if cost != 0.0 then guardrails.suggestedPrice / cost - 1.0 else 0.0;
    PriceCalculation(
      Round2(floor), Round2(breakEven), Round2(floor), FloorPolicyFor(i.targetMargin), i.attributeFactor,
      Round2(PropertyReference(i)), Round2(MarketReference(i)), guardrails.rule,
      Round2(guardrails.suggestedPrice), Round2(guardrails.belowMarketBy), Round4(margin))
  }

  // ---------------------------------------------------------------- length-of-stay matrix

  const LOS_CANDIDATES: seq<int> := [1, 2, 3, 7, 14]

  datatype LosCandidate = LosCandidate(
    stayLength: int,
    minimumPrice: real,
    floorPolicy: FloorPolicy,
    rule: Rule,
    suggestedPrice: real,
    effectiveMargin: real)

  function LosCandidateFor(i: PriceInputs, stayLength: int): LosCandidate
    requires stayLength != 0
  {
    var price := DecidePrice(i, stayLength);
    LosCandidate(stayLength, price.minimumPrice, price.floorPolicy, price.rule, price.suggestedPrice,
                 price.effectiveMargin)
  }

  function LosMatrix(i: PriceInputs, stayLengths: seq<int>): (candidates: seq<LosCandidate>)
    requires forall k :: 0 <= k < |stayLengths| ==> stayLengths[k] != 0
    ensures |candidates| == |stayLengths|
    ensures forall k :: 0 <= k < |stayLengths| ==> candidates[k] == LosCandidateFor(i, stayLengths[k])
  {
    seq(|stayLengths|, k requires 0 <= k < |stayLengths| => LosCandidateFor(i, stayLengths[k]))
  }

  method DecidePriceLosMatrix(i: PriceInputs, stayLengths: seq<int>) returns (candidates: seq<LosCandidate>)
    requires forall k :: 0 <= k < |stayLengths| ==> stayLengths[k] != 0
    ensures candidates == LosMatrix(i, stayLengths)
  {
    candidates := [];
    for k := 0 to |stayLengths|
      invariant candidates == LosMatrix(i, stayLengths)[..k]
    {
      candidates := candidates + [LosCandidateFor(i, stayLengths[k])];
    }
  }

  // ---------------------------------------------------------------- minimum stay

  /** The decision component of a recommendation: its code and its signed EUR impact. */
  datatype StayComponent =
    | NoComponent
    | MinimumStayRecommended(floorRelief: real)
    | MinimumStayNotViable(residualGap: real)

  datatype MinimumStay = MinimumStay(
    recommended: Option<int>,
    floorRelief: Option<real>,
    costPerReservation: Option<real>,
    pricePerReservation: Option<real>,
    component: StayComponent)

  /** The order of `sorted(candidates, key=stay_length)`. */
  predicate NoLonger(a: LosCandidate, b: LosCandidate) {
    a.stayLength <= b.stayLength
  }

  function SortedByStay(candidates: seq<LosCandidate>): (ordered: seq<LosCandidate>)
    ensures multiset(ordered) == multiset(candidates)
    ensures SortedBy(ordered, NoLonger)
  {
    Sort(candidates, NoLonger)
  }

  function ReservationCost(stayLength: int, costPerNight: real, perBookingCost: real): real {
    Round2(stayLength as real * costPerNight + perBookingCost)
  }

  function ForNights(price: real, nights: int): real {
    price * nights as real
  }

  function ReservationPrice(c: LosCandidate): real {
    Round2(ForNights(c.suggestedPrice, c.stayLength))
  }

  function RecommendedAt(c: LosCandidate, relief: real, component: StayComponent,
                         costPerNight: real, perBookingCost: real): MinimumStay {
    MinimumStay(
      Some(c.stayLength), Some(relief),
      Some(ReservationCost(c.stayLength, costPerNight, perBookingCost)),
      Some(ReservationPrice(c)), component)
  }

  /** The first candidate of an ordered list whose price is not driven above the property
      reference by the floor. */
  function FirstClearing(ordered: seq<LosCandidate>): (k: Option<nat>)
    ensures k.Some? ==>
              && k.value < |ordered|
              && !ordered[k.value].rule.MinimumProfitablePrice?
              && forall j :: 0 <= j < k.value ==> ordered[j].rule.MinimumProfitablePrice?
    ensures k.None? ==> forall j :: 0 <= j < |ordered| ==> ordered[j].rule.MinimumProfitablePrice?
  {
    if ordered == [] then None
    else if !ordered[0].rule.MinimumProfitablePrice? then Some(0)
    else
      var rest := FirstClearing(ordered[1..]);
      if rest.None? then None else Some(rest.value + 1)
  }

  function RecommendMinimumStay(candidates: seq<LosCandidate>, propertyReference: real,
                                costPerNight: real, perBookingCost: real): MinimumStay
    requires candidates != []
  {
    var ordered := SortedByStay(candidates);
    assert |multiset(ordered)| == |multiset(candidates)|;
    var first := FirstClearing(ordered);
    if first.None? then
      var longest := ordered[|ordered| - 1];
      MinimumStay(None, None, None, None, MinimumStayNotViable(Round2(longest.minimumPrice - propertyReference)))
    else if first.value == 0 then
      RecommendedAt(ordered[0], 0.0, NoComponent, costPerNight, perBookingCost)
    else
      var c := ordered[first.value];
      var relief := Round2(ordered[0].minimumPrice - c.minimumPrice);
      RecommendedAt(c, relief, MinimumStayRecommended(relief), costPerNight, perBookingCost)
  }

  /** The scan of the source: the shortest candidate first, then the others with an early return. */
  method ScanMinimumStay(candidates: seq<LosCandidate>, propertyReference: real,
                         costPerNight: real, perBookingCost: real) returns (stay: MinimumStay)
    requires candidates != []
    ensures stay == RecommendMinimumStay(candidates, propertyReference, costPerNight, perBookingCost)
  {
    var ordered := SortedByStay(candidates);
    assert |multiset(ordered)| == |multiset(candidates)|;
    var atOneNight := ordered[0];
    if !atOneNight.rule.MinimumProfitablePrice? {
      return RecommendedAt(atOneNight, 0.0, NoComponent, costPerNight, perBookingCost);
    }
    for k := 1 to |ordered|
      invariant forall j :: 0 <= j < k ==> ordered[j].rule.MinimumProfitablePrice?
    {
      var candidate := ordered[k];
      if !candidate.rule.MinimumProfitablePrice? {
        var relief := Round2(atOneNight.minimumPrice - candidate.minimumPrice);
        return RecommendedAt(candidate, relief, MinimumStayRecommended(relief), costPerNight, perBookingCost);
      }
    }
    var longest := ordered[|ordered| - 1];
    stay := MinimumStay(None, None, None, None, MinimumStayNotViable(Round2(longest.minimumPrice - propertyReference)));
  }

  // ---------------------------------------------------------------- channels

  function ChannelCommission(platform: Platform): real {
    match platform
    case Airbnb => 0.12
    case Booking => 0.15
    case Vrbo => 0.08
  }

  datatype ChannelCandidate = ChannelCandidate(
    platform: Platform,
    marketRate: real,
    commission: real,
    marketReference: real,
    minimumPrice: real,
    floorPolicy: FloorPolicy,
    rule: Rule,
    suggestedPrice: real,
    effectiveMargin: real)

  /** The inputs of one channel's price: its own rate, commission and netting; the rest shared. */
  function ChannelInputs(base: PriceInputs, platform: Platform, rate: real, pOther: real, net: real): PriceInputs {
    var commission := ChannelCommission(platform);
    base.(marketRate := rate, p := pOther + commission, netting := Round2(commission * net))
  }

  function ChannelCandidateFor(base: PriceInputs, platform: Platform, rate: real, pOther: real,
                               net: real): ChannelCandidate
  {
    var price := DecidePrice(ChannelInputs(base, platform, rate, pOther, net), 1);
    ChannelCandidate(
      platform, rate, ChannelCommission(platform), price.marketReference, price.minimumPrice,
      price.floorPolicy, price.rule, price.suggestedPrice, price.effectiveMargin)
  }

  function ChannelMatrix(rates: map<Platform, real>, base: PriceInputs, pOther: real,
                         net: real): map<Platform, ChannelCandidate>
  {
    map platform | platform in rates :: ChannelCandidateFor(base, platform, rates[platform], pOther, net)
  }

  method DecidePriceByChannel(rates: map<Platform, real>, base: PriceInputs, pOther: real, net: real)
    returns (candidates: map<Platform, ChannelCandidate>)
    ensures candidates == ChannelMatrix(rates, base, pOther, net)
  {
    candidates := map[];
    var todo := rates.Keys;
    while todo != {}
      invariant todo <= rates.Keys
      invariant candidates == map platform | platform in rates && platform !in todo ::
                                ChannelCandidateFor(base, platform, rates[platform], pOther, net)
      decreases todo
    {
      var platform :| platform in todo;
      candidates := candidates[platform := ChannelCandidateFor(base, platform, rates[platform], pOther, net)];
      todo := todo - {platform};
    }
  }

  // ---------------------------------------------------------------- viability

  datatype Viability =
    | Ok
    | DemandUpside
    | MinStayLeverAvailable
    | ChannelLeverAvailable
    | PersistentFloorBreach
    | OverrideActive
    | FloorBinding

  const PERSISTENT_BREACH_THRESHOLD_DAYS := 30

  function ClassifyViability(rule: Rule, belowMarketBy: real, recommendedMinStay: Option<int>,
                             anyChannelCompetitive: bool, overrideActive: bool, floorBreachDays: int): Viability {
    if overrideActive then OverrideActive
    else if floorBreachDays >= PERSISTENT_BREACH_THRESHOLD_DAYS then PersistentFloorBreach
    else if rule.MarketCompetitive? then (if belowMarketBy <= 0.0 then DemandUpside else Ok)
    else if recommendedMinStay.Some? && recommendedMinStay.value > 1 then MinStayLeverAvailable
    else if anyChannelCompetitive then ChannelLeverAvailable
    else FloorBinding
  }
}
