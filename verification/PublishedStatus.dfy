/** The dashboard's price status as it is shown: computed from the published figures, which are rounded
    to cents (hot_path.py), where ProfitGuarantee speaks of the engine's unrounded price. */
module PublishedStatus {
  import opened Rounding
  import opened PricingEngine
  import opened ProfitGuarantee
  import LengthOfStay

  /** `to_display_row`'s status: the published price and property reference, the published cost. */
  function ShownStatus(i: PriceInputs): PriceStatus {
    var price := DecidePrice(i, 1);
    StatusOf(price.suggestedPrice, CostPerNight(i, 1), i.targetMargin, price.propertyReference)
  }

  predicate FallsShort(status: PriceStatus) {
    status.PriceBelowCost? || status.PriceBelowProfit?
  }

  function Target(cost: real, margin: real): real {
    cost * (1.0 + margin)
  }

  /** Cost plus the target margin on it. */
  function ProfitFloor(i: PriceInputs): real {
    Target(CostPerNight(i, 1), i.targetMargin)
  }

  /** What the engine's price is the rounding of. */
  function Higher(floor: real, market: real): real {
    if floor <= market then market else floor
  }

  lemma RoundedAbove(floor: real, market: real, property: real)
    requires market <= property
    ensures var g := ApplyGuardrails(floor, market, property);
            && g.suggestedPrice == Higher(floor, market)
            && (Round2(g.suggestedPrice) > Round2(property) <==>
                  g.rule.MinimumProfitablePrice? && Round2(floor) != Round2(property))
  {
    Round2Monotone(market, property);
    if floor <= property { Round2Monotone(floor, property); } else { Round2Monotone(property, floor); }
  }

  lemma StatusFromFigures(price: real, cost: real, margin: real, property: real)
    requires cost >= 0.0 && margin >= 0.0
    ensures FallsShort(StatusOf(price, cost, margin, property)) <==> price < Target(cost, margin)
    ensures StatusOf(price, cost, margin, property).PriceBelowCost? <==> price < cost
    ensures !FallsShort(StatusOf(price, cost, margin, property)) ==>
              (StatusOf(price, cost, margin, property).PriceAboveMarket? <==> price > property)
  {
    assert cost * margin >= 0.0;
  }

  /** The status of one night from the engine's unrounded figures. */
  function StatusOfNight(floor: real, market: real, property: real, cost: real, margin: real): PriceStatus {
    StatusOf(Round2(ApplyGuardrails(floor, market, property).suggestedPrice), cost, margin, Round2(property))
  }

  lemma ShownIs(i: PriceInputs)
    ensures ShownStatus(i) ==
            StatusOfNight(FloorPrice(i, 1), MarketReference(i), PropertyReference(i), CostPerNight(i, 1),
                          i.targetMargin)
    ensures DecidePrice(i, 1).rule == ApplyGuardrails(FloorPrice(i, 1), MarketReference(i), PropertyReference(i)).rule
  {
  }

  lemma NightShortExactly(floor: real, market: real, property: real, cost: real, margin: real)
    requires market <= property && cost >= 0.0 && margin >= 0.0
    ensures var status := StatusOfNight(floor, market, property, cost, margin);
            && (FallsShort(status) <==> Round2(Higher(floor, market)) < Target(cost, margin))
            && (!FallsShort(status) ==>
                  (status.PriceAboveMarket? <==>
                    ApplyGuardrails(floor, market, property).rule.MinimumProfitablePrice?
                        && Round2(floor) != Round2(property)))
  {
    RoundedAbove(floor, market, property);
    StatusFromFigures(Round2(ApplyGuardrails(floor, market, property).suggestedPrice), cost, margin, Round2(property));
  }

  /** The shown status falls short exactly when the rounded price misses the profit floor. */
  lemma ShownShortExactly(i: PriceInputs)
    requires SoundInputs(i)
    ensures FallsShort(ShownStatus(i)) <==> Round2(Higher(FloorPrice(i, 1), MarketReference(i))) < ProfitFloor(i)
    ensures !FallsShort(ShownStatus(i)) ==>
              (ShownStatus(i).PriceAboveMarket? <==>
                DecidePrice(i, 1).rule.MinimumProfitablePrice?
                    && Round2(FloorPrice(i, 1)) != Round2(PropertyReference(i)))
  {
    ShownIs(i);
    LengthOfStay.MarketBelowProperty(i);
    NightShortExactly(FloorPrice(i, 1), MarketReference(i), PropertyReference(i), CostPerNight(i, 1), i.targetMargin);
  }

  /** On one market, exactly: the shown status agrees with the rule if and only if the rounded price
      reaches the profit floor, and a floor above the property reference does not round onto it. */
  lemma ShownAgreesExactly(i: PriceInputs)
    requires SoundInputs(i)
    ensures Agrees(ShownStatus(i), DecidePrice(i, 1).rule) <==>
              && Round2(Higher(FloorPrice(i, 1), MarketReference(i))) >= ProfitFloor(i)
              && (FloorPrice(i, 1) > PropertyReference(i) ==> Round2(FloorPrice(i, 1)) != Round2(PropertyReference(i)))
  {
    ShownShortExactly(i);
    LengthOfStay.MarketBelowProperty(i);
    LengthOfStay.GuardrailsCase(FloorPrice(i, 1), MarketReference(i), PropertyReference(i));
  }

  lemma RoundedHigher(floor: real, market: real, target: real)
    requires Round2(floor) >= target
    ensures Round2(Higher(floor, market)) >= target
  {
    Round2Monotone(floor, Higher(floor, market));
  }

  lemma RoundedFloorReaches(i: PriceInputs, rate: real)
    requires SoundInputs(i) && Round2(FloorPrice(i, 1)) >= ProfitFloor(i) && IsMarket(i, rate)
    ensures !FallsShort(ShownStatus(OnMarket(i, rate)))
  {
    OnlyTheMarketChanges(i, rate);
    RoundedHigher(FloorPrice(i, 1), MarketReference(OnMarket(i, rate)), ProfitFloor(i));
    ShownShortExactly(OnMarket(i, rate));
  }

  lemma RoundedMiss(floor: real, target: real)
    requires Round2(floor) < target && target > 0.0
    ensures Round2(Higher(floor, 0.0)) < target
  {
    NearestOfInt(0);
  }

  lemma RoundedFloorMisses(i: PriceInputs)
    requires SoundInputs(i) && Round2(FloorPrice(i, 1)) < ProfitFloor(i)
    ensures FallsShort(ShownStatus(OnMarket(i, 0.0)))
  {
    OnlyTheMarketChanges(i, 0.0);
    OnWorthlessMarket(i);
    ProfitFloorPositive(i);
    RoundedMiss(FloorPrice(i, 1), ProfitFloor(i));
    ShownShortExactly(OnMarket(i, 0.0));
  }

  lemma ProfitFloorPositive(i: PriceInputs)
    requires SoundInputs(i)
    ensures ProfitFloor(i) > 0.0
  {
    assert CostPerNight(i, 1) * i.targetMargin >= 0.0;
  }

  /** On every market, exactly: the shown status never falls short of cost or profit if and only if the
      floor still reaches the profit floor once it is rounded to cents. */
  lemma ShownNeverShortExactly(i: PriceInputs)
    requires SoundInputs(i)
    ensures Round2(FloorPrice(i, 1)) >= ProfitFloor(i) <==>
            forall rate :: IsMarket(i, rate) ==> !FallsShort(ShownStatus(OnMarket(i, rate)))
  {
    if Round2(FloorPrice(i, 1)) >= ProfitFloor(i) {
      forall rate | IsMarket(i, rate) ensures !FallsShort(ShownStatus(OnMarket(i, rate))) {
        RoundedFloorReaches(i, rate);
      }
    } else {
      RoundedFloorMisses(i);
      OnWorthlessMarket(i);
    }
  }

  // ---------------------------------------------------------------- where the rounding shows

  lemma NearestIs(x: real, n: int)
    requires n as real - 0.5 < x < n as real + 0.5
    ensures Nearest(x) == n
  {
    assert Nearest(x) < n + 1 && n - 1 < Nearest(x);
  }

  lemma RoundsTo(x: real, hundredfold: real, cents: int)
    requires hundredfold == x * 100.0 && cents as real - 0.5 < hundredfold < cents as real + 0.5
    ensures Round2(x) == cents as real / 100.0
  {
    NearestIs(hundredfold, cents);
  }

  lemma NothingNetted(i: PriceInputs)
    requires SoundInputs(i) && i.p >= 0.0 && i.netting == 0.0
    ensures i.netting <= NettingLimit(i)
  {
    ProductNotNegative(i.p, CostPerNight(i, 1));
    OwnShareIsWithinLimit(i);
  }

  const LOSES_A_CENT := PriceInputs(10.05, 0.0, 0.0, 0.01, 10.0, 0.0, 1.0, 0.0, 45)

  lemma FiguresOfLostCent() returns (floor: real)
    ensures FloorPrice(LOSES_A_CENT, 1) == floor
    ensures MarketReference(LOSES_A_CENT) == PropertyReference(LOSES_A_CENT) == 10.0
    ensures CostPerNight(LOSES_A_CENT, 1) == 10.05 && SoundInputs(LOSES_A_CENT)
    ensures floor > 10.0 && Round2(floor) == 10.15
  {
    floor := 10.05 / 0.99;
    assert floor * 0.99 == 10.05;
    RoundsTo(floor, floor * 100.0, 1015);
  }

  lemma ShortOfProfit(floor: real)
    requires floor > 10.0 && Round2(floor) == 10.15
    ensures StatusOfNight(floor, 10.0, 10.0, 10.05, 0.01).PriceBelowProfit?
  {
  }

  lemma LostCentWithinLimit()
    ensures SoundInputs(LOSES_A_CENT) && LOSES_A_CENT.netting <= NettingLimit(LOSES_A_CENT)
  {
    var floor := FiguresOfLostCent();
    NothingNetted(LOSES_A_CENT);
  }

  lemma LostCentShows()
    ensures ShownStatus(LOSES_A_CENT).PriceBelowProfit?
  {
    var floor := FiguresOfLostCent();
    ShortOfProfit(floor);
    ShownIs(LOSES_A_CENT);
  }

  /** Within the netting limit, a cent lost by rounding the floor shows as "below profit". */
  lemma RoundedBelowProfit()
    ensures SoundInputs(LOSES_A_CENT) && LOSES_A_CENT.netting <= NettingLimit(LOSES_A_CENT)
    ensures Agrees(EngineStatus(LOSES_A_CENT), DecidePrice(LOSES_A_CENT, 1).rule)
    ensures ShownStatus(LOSES_A_CENT).PriceBelowProfit?
  {
    LostCentWithinLimit();
    StatusAgreesWithRule(LOSES_A_CENT);
    LostCentShows();
  }

  const ROUNDS_ONTO_MARKET := PriceInputs(10.01, 0.0, 0.2, 0.0, 12.512, 0.0, 1.0, 0.0, 45)

  lemma FiguresOfRoundedFloor()
    ensures FloorPrice(ROUNDS_ONTO_MARKET, 1) == 12.5125
    ensures MarketReference(ROUNDS_ONTO_MARKET) == PropertyReference(ROUNDS_ONTO_MARKET) == 12.512
    ensures CostPerNight(ROUNDS_ONTO_MARKET, 1) == 10.01 && SoundInputs(ROUNDS_ONTO_MARKET)
  {
  }

  lemma OntoTheMarket()
    ensures StatusOfNight(12.5125, 12.512, 12.512, 10.01, 0.0).Competitive?
  {
    RoundsTo(12.5125, 1251.25, 1251);
    RoundsTo(12.512, 1251.2, 1251);
  }

  /** Within the netting limit, a floor that rounds onto the property reference shows as competitive
      although the rule is minimum_profitable_price. */
  lemma RoundedOntoMarket()
    ensures SoundInputs(ROUNDS_ONTO_MARKET) && ROUNDS_ONTO_MARKET.netting <= NettingLimit(ROUNDS_ONTO_MARKET)
    ensures DecidePrice(ROUNDS_ONTO_MARKET, 1).rule.MinimumProfitablePrice?
            && ShownStatus(ROUNDS_ONTO_MARKET).Competitive?
  {
    FiguresOfRoundedFloor();
    OntoTheMarket();
    ShownIs(ROUNDS_ONTO_MARKET);
    NothingNetted(ROUNDS_ONTO_MARKET);
  }
}
