/** What the recommended reservation costs and is priced at in total (`recommend_minimum_stay`), and
    when that price is at or below the market reference, as its documentation promises. */
module MinimumStayPrice {
  import opened Wrappers
  import opened Rounding
  import opened PricingEngine
  import opened LengthOfStay

  // ---------------------------------------------------------------- one night

  lemma ClearingSide(floor: real, market: real, property: real)
    requires market <= property && !ApplyGuardrails(floor, market, property).rule.MinimumProfitablePrice?
    ensures var price := ApplyGuardrails(floor, market, property).suggestedPrice;
            && (price <= market <==> floor <= market)
            && (Round2(price) <= Round2(market) <==> Round2(floor) <= Round2(market))
            && Round2(floor) <= Round2(price) <= Round2(property)
  {
    var price := ApplyGuardrails(floor, market, property).suggestedPrice;
    Round2Monotone(floor, price);
    Round2Monotone(price, property);
    if floor <= market { Round2Monotone(floor, market); }
  }

  lemma PublishedNight(i: PriceInputs, n: int)
    requires n > 0
    ensures DecidePrice(i, n).suggestedPrice == Round2(Arbitrate(i, n).suggestedPrice)
    ensures DecidePrice(i, n).marketReference == Round2(MarketReference(i))
    ensures DecidePrice(i, n).minimumPrice == Round2(FloorPrice(i, n))
    ensures DecidePrice(i, n).propertyReference == Round2(PropertyReference(i))
    ensures Arbitrate(i, n) == ApplyGuardrails(FloorPrice(i, n), MarketReference(i), PropertyReference(i))
    ensures Clears(i, n) <==> !Arbitrate(i, n).rule.MinimumProfitablePrice?
  {
  }

  /** The nightly price of a stay that clears is at or below the market reference exactly when its floor
      is, before and after rounding to cents; it lies between the floor and the property reference. */
  lemma NightAgainstMarket(i: PriceInputs, n: int)
    requires n > 0 && i.discount >= 0.0 && PropertyReference(i) >= 0.0 && Clears(i, n)
    ensures Arbitrate(i, n).suggestedPrice <= MarketReference(i) <==> FloorPrice(i, n) <= MarketReference(i)
    ensures DecidePrice(i, n).suggestedPrice <= DecidePrice(i, n).marketReference <==>
            DecidePrice(i, n).minimumPrice <= DecidePrice(i, n).marketReference
    ensures DecidePrice(i, n).minimumPrice <= DecidePrice(i, n).suggestedPrice <= DecidePrice(i, n).propertyReference
  {
    PublishedNight(i, n);
    MarketBelowProperty(i);
    ClearingSide(FloorPrice(i, n), MarketReference(i), PropertyReference(i));
  }

  // ---------------------------------------------------------------- the whole reservation

  lemma OneNightMore(price: real, nights: int)
    ensures ForNights(price, nights) == ForNights(price, nights - 1) + price
    ensures ForNights(price, 0) == 0.0
  {
  }

  lemma {:induction false} CentsForNights(price: real, nights: nat)
    requires IsCents(price)
    ensures IsCents(ForNights(price, nights))
  {
    OneNightMore(price, nights);
    if nights == 0 {
      assert (0.0 * 100.0).Floor == 0;
    } else {
      CentsForNights(price, nights - 1);
      CentsAdd(ForNights(price, nights - 1), price);
    }
  }

  lemma ForNightsKeepsOrder(a: real, b: real, n: int)
    requires n > 0
    ensures ForNights(a, n) <= ForNights(b, n) <==> a <= b
  {
    var nights := n as real;
    assert b * nights - a * nights == (b - a) * nights;
    if a <= b { assert (b - a) * nights >= 0.0; } else { assert (a - b) * nights > 0.0; }
  }

  /** Rounding the total of whole-cent nights changes nothing. */
  lemma TotalIsExact(candidate: LosCandidate)
    requires candidate.stayLength > 0 && IsCents(candidate.suggestedPrice)
    ensures ReservationPrice(candidate) == ForNights(candidate.suggestedPrice, candidate.stayLength)
  {
    CentsForNights(candidate.suggestedPrice, candidate.stayLength);
    Round2OfCents(ForNights(candidate.suggestedPrice, candidate.stayLength));
  }

  lemma CandidateFigures(i: PriceInputs, n: int) returns (candidate: LosCandidate)
    requires n > 0
    ensures candidate == LosCandidateFor(i, n)
    ensures candidate.stayLength == n && candidate.suggestedPrice == DecidePrice(i, n).suggestedPrice
    ensures IsCents(candidate.suggestedPrice)
  {
    candidate := LosCandidateFor(i, n);
    PublishedNight(i, n);
    Round2IsCents(Arbitrate(i, n).suggestedPrice);
  }

  lemma TotalOfNights(floor: real, price: real, market: real, n: int)
    requires n > 0 && floor <= price && (price <= market <==> floor <= market)
    ensures ForNights(price, n) >= ForNights(floor, n)
    ensures ForNights(price, n) <= ForNights(market, n) <==> floor <= market
  {
    ForNightsKeepsOrder(floor, price, n);
    ForNightsKeepsOrder(price, market, n);
  }

  /** The total of a reservation: exactly the nightly price times the nights, between the floor and the
      property reference of all its nights, and at or below the market reference of all its nights exactly
      when the published floor of one night is at or below the published market reference. */
  lemma TotalAgainstMarket(i: PriceInputs, n: int, total: real)
    requires n > 0 && i.discount >= 0.0 && PropertyReference(i) >= 0.0 && Clears(i, n)
    requires total == ReservationPrice(LosCandidateFor(i, n))
    ensures total == ForNights(DecidePrice(i, n).suggestedPrice, n)
    ensures ForNights(DecidePrice(i, n).minimumPrice, n) <= total <= ForNights(DecidePrice(i, n).propertyReference, n)
    ensures total <= ForNights(DecidePrice(i, n).marketReference, n) <==>
            DecidePrice(i, n).minimumPrice <= DecidePrice(i, n).marketReference
  {
    var candidate := CandidateFigures(i, n);
    TotalIsExact(candidate);
    NightAgainstMarket(i, n);
    ForNightsKeepsOrder(DecidePrice(i, n).suggestedPrice, DecidePrice(i, n).propertyReference, n);
    TotalOfNights(DecidePrice(i, n).minimumPrice, DecidePrice(i, n).suggestedPrice, DecidePrice(i, n).marketReference,
                  n);
  }

  /** On the recommendation itself: its total is that of the recommended stay, its cost covers every
      night and one booking, and the promise "at or below the market reference" is kept exactly when the
      recommended stay's floor is at or below that reference. */
  lemma RecommendationAgainstMarket(i: PriceInputs, stayLengths: seq<int>)
    requires stayLengths != [] && forall k :: 0 <= k < |stayLengths| ==> stayLengths[k] > 0
    requires i.discount >= 0.0 && PropertyReference(i) >= 0.0
    requires Recommendation(i, stayLengths).recommended.Some?
    ensures var r := Recommendation(i, stayLengths);
            var n := r.recommended.value;
            && n > 0 && r.pricePerReservation.Some?
            && r.costPerReservation == Some(ReservationCost(n, i.costPerNight, i.perBookingCost))
            && r.pricePerReservation.value == ForNights(DecidePrice(i, n).suggestedPrice, n)
            && r.pricePerReservation.value >= ForNights(DecidePrice(i, n).minimumPrice, n)
            && r.pricePerReservation.value <= ForNights(DecidePrice(i, n).propertyReference, n)
            && (Arbitrate(i, n).suggestedPrice <= MarketReference(i) <==> FloorPrice(i, n) <= MarketReference(i))
            && (r.pricePerReservation.value <= ForNights(DecidePrice(i, n).marketReference, n) <==>
                  DecidePrice(i, n).minimumPrice <= DecidePrice(i, n).marketReference)
  {
    RecommendedReservation(i, stayLengths);
    var r := Recommendation(i, stayLengths);
    TotalAgainstMarket(i, r.recommended.value, r.pricePerReservation.value);
    NightAgainstMarket(i, r.recommended.value);
  }

  const FLOOR_NIGHT := PriceInputs(90.0, 0.0, 0.0, 0.0, 100.0, 0.2, 1.0, 0.0, 45)

  lemma FloorOfFloorNight()
    ensures FloorPrice(FLOOR_NIGHT, 1) == 90.0
  {
    assert CostPerNight(FLOOR_NIGHT, 1) == 90.0;
  }

  lemma MarketOfFloorNight()
    ensures MarketReference(FLOOR_NIGHT) == 80.0 && PropertyReference(FLOOR_NIGHT) == 100.0
  {
    assert BookingWindowFactor(45) == 1.0;
    assert PropertyReference(FLOOR_NIGHT) == 100.0;
  }

  lemma FiguresOfFloorNight()
    ensures FloorPrice(FLOOR_NIGHT, 1) == 90.0
    ensures MarketReference(FLOOR_NIGHT) == 80.0 && PropertyReference(FLOOR_NIGHT) == 100.0
  {
    FloorOfFloorNight();
    MarketOfFloorNight();
  }

  lemma PublishedFloorNight()
    ensures DecidePrice(FLOOR_NIGHT, 1).suggestedPrice == 90.0 && DecidePrice(FLOOR_NIGHT, 1).marketReference == 80.0
    ensures DecidePrice(FLOOR_NIGHT, 1).rule.MinimumFloor?
  {
    FiguresOfFloorNight();
    PublishedNight(FLOOR_NIGHT, 1);
    NearestOfInt(9000);
    NearestOfInt(8000);
  }

  lemma OneNightClears(i: PriceInputs)
    requires Meaningful(i) && Clears(i, 1)
    ensures Recommendation(i, LOS_CANDIDATES).recommended == Some(1)
  {
    RecommendationIsTheThreshold(i, LOS_CANDIDATES);
    assert LOS_CANDIDATES[0] == 1;
    assert 1 in LOS_CANDIDATES;
    var r := Recommendation(i, LOS_CANDIDATES);
    assert r.recommended.Some?;
    assert r.recommended.value <= 1;
  }

  lemma TotalOfRecommended(i: PriceInputs, stayLengths: seq<int>, n: int, price: real)
    requires stayLengths != [] && forall k :: 0 <= k < |stayLengths| ==> stayLengths[k] > 0
    requires i.discount >= 0.0 && PropertyReference(i) >= 0.0
    requires Recommendation(i, stayLengths).recommended == Some(n) && n > 0 && DecidePrice(i, n).suggestedPrice == price
    ensures Recommendation(i, stayLengths).pricePerReservation == Some(ForNights(price, n))
  {
    RecommendationAgainstMarket(i, stayLengths);
  }

  /** The promise fails: with a floor of 90 and a market reference of 80, one night is recommended at 90,
      since that stays under the property reference of 100. */
  lemma RecommendedAboveMarket()
    ensures Recommendation(FLOOR_NIGHT, LOS_CANDIDATES).recommended == Some(1)
    ensures Recommendation(FLOOR_NIGHT, LOS_CANDIDATES).pricePerReservation == Some(90.0)
    ensures DecidePrice(FLOOR_NIGHT, 1).marketReference == 80.0
  {
    FloorNightIsRecommended();
    PublishedFloorNight();
    FiguresOfFloorNight();
    TotalOfRecommended(FLOOR_NIGHT, LOS_CANDIDATES, 1, 90.0);
    OneNightMore(90.0, 1);
  }

  lemma FloorNightIsRecommended()
    ensures Recommendation(FLOOR_NIGHT, LOS_CANDIDATES).recommended == Some(1)
  {
    PublishedFloorNight();
    OneNightClears(FLOOR_NIGHT);
  }
}
