/** The length-of-stay threshold: longer stays dilute the per-booking cost, so the floor only
    falls and the rule only relaxes; the recommended minimum stay is the exact threshold. */
module LengthOfStay {
  import opened Wrappers
  import opened Rounding
  import opened Listings
  import opened PricingEngine

  /** The rule does not push the price above the property reference. */
  predicate Clears(i: PriceInputs, stayLength: int)
    requires stayLength != 0
  {
    !DecidePrice(i, stayLength).rule.MinimumProfitablePrice?
  }

  /** minimum_profitable_price > minimum_floor > market_competitive. */
  function Severity(rule: Rule): int {
    match rule
    case MarketCompetitive => 0
    case MinimumFloor => 1
    case MinimumProfitablePrice => 2
  }

  /** What the pricing layer may assume of its inputs: a real booking cost and a floor that means something. */
  predicate Meaningful(i: PriceInputs) {
    i.perBookingCost >= 0.0 && i.p + i.targetMargin < 1.0
  }

  lemma QuotientMonotone(x: real, y: real, d: real)
    requires x <= y && d > 0.0
    ensures x / d <= y / d
  {
    assert y / d - x / d == (y - x) / d;
  }

  lemma AmortizedFalls(amount: real, shorter: int, longer: int)
    requires amount >= 0.0 && 0 < shorter <= longer
    ensures amount / longer as real <= amount / shorter as real
  {
    var a, b := amount / shorter as real, amount / longer as real;
    assert a * shorter as real == amount == b * longer as real;
  }

  /** The floor does not rise, and the rule does not get worse, with a longer stay. */
  lemma LongerStayRelaxes(i: PriceInputs, shorter: int, longer: int)
    requires Meaningful(i) && 0 < shorter <= longer
    ensures FloorPrice(i, longer) <= FloorPrice(i, shorter)
    ensures DecidePrice(i, longer).minimumPrice <= DecidePrice(i, shorter).minimumPrice
    ensures Severity(DecidePrice(i, longer).rule) <= Severity(DecidePrice(i, shorter).rule)
    ensures Clears(i, shorter) ==> Clears(i, longer)
  {
    AmortizedFalls(i.perBookingCost, shorter, longer);
    QuotientMonotone(CostPerNight(i, longer) - i.netting, CostPerNight(i, shorter) - i.netting,
                     1.0 - i.p - i.targetMargin);
    Round2Monotone(FloorPrice(i, longer), FloorPrice(i, shorter));
  }

  /** stay is what recommend_minimum_stay returns for the matrix of these stay lengths. */
  function Recommendation(i: PriceInputs, stayLengths: seq<int>): MinimumStay
    requires stayLengths != [] && forall k :: 0 <= k < |stayLengths| ==> stayLengths[k] > 0
  {
    RecommendMinimumStay(LosMatrix(i, stayLengths), DecidePrice(i, 1).propertyReference, i.costPerNight,
                         i.perBookingCost)
  }

  lemma CandidateOf(i: PriceInputs, stayLengths: seq<int>, c: LosCandidate)
    requires forall k :: 0 <= k < |stayLengths| ==> stayLengths[k] > 0
    requires c in multiset(LosMatrix(i, stayLengths))
    ensures c.stayLength > 0 && c.stayLength in stayLengths && c == LosCandidateFor(i, c.stayLength)
  {
    var matrix := LosMatrix(i, stayLengths);
    var k :| 0 <= k < |matrix| && matrix[k] == c;
  }

  /** Every stay length is listed in the ordered matrix. */
  lemma ListedInOrder(i: PriceInputs, stayLengths: seq<int>, n: int) returns (k: nat)
    requires forall k :: 0 <= k < |stayLengths| ==> stayLengths[k] > 0
    requires n in stayLengths
    ensures k < |SortedByStay(LosMatrix(i, stayLengths))|
    ensures SortedByStay(LosMatrix(i, stayLengths))[k] == LosCandidateFor(i, n)
  {
    var matrix := LosMatrix(i, stayLengths);
    var j :| 0 <= j < |stayLengths| && stayLengths[j] == n;
    assert matrix[j] in multiset(matrix);
    assert LosCandidateFor(i, n) in multiset(SortedByStay(matrix));
    k :| 0 <= k < |SortedByStay(matrix)| && SortedByStay(matrix)[k] == LosCandidateFor(i, n);
  }

  /** ordered holds exactly the candidates of these stay lengths, the shortest first. */
  ghost predicate OrderedCandidates(i: PriceInputs, stayLengths: seq<int>, ordered: seq<LosCandidate>) {
    && SortedBy(ordered, NoLonger)
    && (forall k :: 0 <= k < |ordered| ==>
          ordered[k].stayLength in stayLengths && ordered[k].stayLength > 0
              && ordered[k] == LosCandidateFor(i, ordered[k].stayLength))
    && (forall n :: n in stayLengths && n > 0 ==> exists k :: 0 <= k < |ordered| && ordered[k] == LosCandidateFor(i, n))
  }

  lemma MatrixInOrder(i: PriceInputs, stayLengths: seq<int>)
    requires forall k :: 0 <= k < |stayLengths| ==> stayLengths[k] > 0
    ensures OrderedCandidates(i, stayLengths, SortedByStay(LosMatrix(i, stayLengths)))
  {
    var matrix := LosMatrix(i, stayLengths);
    var ordered := SortedByStay(matrix);
    forall k | 0 <= k < |ordered|
      ensures ordered[k].stayLength in stayLengths && ordered[k].stayLength > 0
              && ordered[k] == LosCandidateFor(i, ordered[k].stayLength)
    {
      assert ordered[k] in multiset(ordered);
      CandidateOf(i, stayLengths, ordered[k]);
    }
    forall n | n in stayLengths && n > 0 ensures exists k :: 0 <= k < |ordered| && ordered[k] == LosCandidateFor(i, n) {
      var k := ListedInOrder(i, stayLengths, n);
    }
  }

  lemma ClearsByRule(i: PriceInputs, n: int)
    requires n != 0
    ensures Clears(i, n) <==> !LosCandidateFor(i, n).rule.MinimumProfitablePrice?
    ensures LosCandidateFor(i, n).stayLength == n
    ensures LosCandidateFor(i, n).minimumPrice == DecidePrice(i, n).minimumPrice
  {
  }

  /** No candidate clears. */
  ghost predicate NothingClears(i: PriceInputs, stayLengths: seq<int>) {
    forall n :: n in stayLengths && n > 0 ==> !Clears(i, n)
  }

  /** best is the least candidate that clears, and every stay of best nights or more, candidate or not,
      clears too. */
  ghost predicate IsThreshold(i: PriceInputs, stayLengths: seq<int>, best: int) {
    && best in stayLengths && best > 0
    && (forall n :: n in stayLengths && 0 < n < best ==> !Clears(i, n))
    && (forall n :: n >= best ==> Clears(i, n))
  }

  lemma NoneClears(i: PriceInputs, stayLengths: seq<int>, ordered: seq<LosCandidate>)
    requires OrderedCandidates(i, stayLengths, ordered) && FirstClearing(ordered).None?
    ensures NothingClears(i, stayLengths)
  {
    forall n | n in stayLengths && n > 0 ensures !Clears(i, n) {
      var k :| 0 <= k < |ordered| && ordered[k] == LosCandidateFor(i, n);
      ClearsByRule(i, n);
    }
  }

  lemma ShorterDoesNotClear(i: PriceInputs, stayLengths: seq<int>, ordered: seq<LosCandidate>, first: nat, n: int)
    requires OrderedCandidates(i, stayLengths, ordered) && FirstClearing(ordered) == Some(first)
    requires n in stayLengths && 0 < n < ordered[first].stayLength
    ensures !Clears(i, n)
  {
    forall j | first < j < |ordered| ensures ordered[first].stayLength <= ordered[j].stayLength {
      assert NoLonger(ordered[first], ordered[j]);
    }
    var k :| 0 <= k < |ordered| && ordered[k] == LosCandidateFor(i, n);
    ClearsByRule(i, n);
  }

  lemma FirstIsThreshold(i: PriceInputs, stayLengths: seq<int>, ordered: seq<LosCandidate>, first: nat)
    requires Meaningful(i) && OrderedCandidates(i, stayLengths, ordered) && FirstClearing(ordered) == Some(first)
    ensures IsThreshold(i, stayLengths, ordered[first].stayLength) && !NothingClears(i, stayLengths)
  {
    var best := ordered[first].stayLength;
    forall n | n in stayLengths && 0 < n < best ensures !Clears(i, n) {
      ShorterDoesNotClear(i, stayLengths, ordered, first, n);
    }
    ClearsByRule(i, best);
    forall n | n >= best ensures Clears(i, n) {
      LongerStayRelaxes(i, best, n);
    }
  }

  /** How far the recommended candidate lowers the floor of the shortest one. */
  function Relief(ordered: seq<LosCandidate>, first: nat): real
    requires first < |ordered|
  {
    if first == 0 then 0.0 else Round2(ordered[0].minimumPrice - ordered[first].minimumPrice)
  }

  lemma Round2NotNegative(x: real)
    requires x >= 0.0
    ensures Round2(x) >= 0.0
  {
    Round2Monotone(0.0, x);
    NearestOfInt(0);
  }

  lemma ReliefIsNotNegative(i: PriceInputs, stayLengths: seq<int>, ordered: seq<LosCandidate>, first: nat)
    requires Meaningful(i) && OrderedCandidates(i, stayLengths, ordered) && first < |ordered|
    ensures Relief(ordered, first) >= 0.0
  {
    if first > 0 {
      assert NoLonger(ordered[0], ordered[first]);
      ClearsByRule(i, ordered[0].stayLength);
      ClearsByRule(i, ordered[first].stayLength);
      LongerStayRelaxes(i, ordered[0].stayLength, ordered[first].stayLength);
      Round2NotNegative(ordered[0].minimumPrice - ordered[first].minimumPrice);
    }
  }

  /** r is read off the ordered candidates and the first one that clears. */
  predicate ReadsOff(r: MinimumStay, ordered: seq<LosCandidate>, first: Option<nat>) {
    && ordered != []
    && (first.Some? ==> first.value < |ordered|)
    && (first.None? ==> r.recommended.None? && r.component.MinimumStayNotViable?)
    && (first.Some? ==>
          && r.recommended == Some(ordered[first.value].stayLength)
          && !r.component.MinimumStayNotViable?
          && r.floorRelief == Some(Relief(ordered, first.value))
          && (r.component.MinimumStayRecommended? ==> r.floorRelief == Some(r.component.floorRelief)))
  }

  lemma RecommendationOf(candidates: seq<LosCandidate>, propertyReference: real, costPerNight: real,
                         perBookingCost: real)
    requires candidates != []
    ensures ReadsOff(RecommendMinimumStay(candidates, propertyReference, costPerNight, perBookingCost),
                     SortedByStay(candidates), FirstClearing(SortedByStay(candidates)))
  {
    assert |multiset(SortedByStay(candidates))| == |multiset(candidates)|;
  }

  lemma ThresholdOf(i: PriceInputs, stayLengths: seq<int>, ordered: seq<LosCandidate>, r: MinimumStay)
    requires Meaningful(i) && OrderedCandidates(i, stayLengths, ordered) && ReadsOff(r, ordered, FirstClearing(ordered))
    ensures r.recommended.None? <==> NothingClears(i, stayLengths)
    ensures r.recommended.None? <==> r.component.MinimumStayNotViable?
    ensures r.recommended.Some? ==>
              IsThreshold(i, stayLengths, r.recommended.value) && r.floorRelief.Some? && r.floorRelief.value >= 0.0
    ensures r.component.MinimumStayRecommended? ==> r.floorRelief == Some(r.component.floorRelief)
  {
    var first := FirstClearing(ordered);
    if first.None? {
      NoneClears(i, stayLengths, ordered);
    } else {
      FirstIsThreshold(i, stayLengths, ordered, first.value);
      ReliefIsNotNegative(i, stayLengths, ordered, first.value);
    }
  }

  /** With a recommendation n: n is the least candidate that clears, every stay of n nights or
      more clears (candidate or not), no shorter candidate does, and the relief is not negative.
      Without one: no candidate clears. */
  lemma RecommendationIsTheThreshold(i: PriceInputs, stayLengths: seq<int>)
    requires Meaningful(i)
    requires stayLengths != [] && forall k :: 0 <= k < |stayLengths| ==> stayLengths[k] > 0
    ensures var r := Recommendation(i, stayLengths);
            && (r.recommended.None? <==> NothingClears(i, stayLengths))
            && (r.recommended.None? <==> r.component.MinimumStayNotViable?)
            && (r.recommended.Some? ==>
                  IsThreshold(i, stayLengths, r.recommended.value) && r.floorRelief.Some? && r.floorRelief.value >= 0.0)
            && (r.component.MinimumStayRecommended? ==> r.floorRelief == Some(r.component.floorRelief))
  {
    var matrix := LosMatrix(i, stayLengths);
    MatrixInOrder(i, stayLengths);
    RecommendationOf(matrix, DecidePrice(i, 1).propertyReference, i.costPerNight, i.perBookingCost);
    ThresholdOf(i, stayLengths, SortedByStay(matrix), Recommendation(i, stayLengths));
  }

  lemma RecommendedCandidate(candidates: seq<LosCandidate>, propertyReference: real, costPerNight: real,
                             perBookingCost: real)
    returns (c: LosCandidate)
    requires candidates != []
    requires RecommendMinimumStay(candidates, propertyReference, costPerNight, perBookingCost).recommended.Some?
    ensures var r := RecommendMinimumStay(candidates, propertyReference, costPerNight, perBookingCost);
            && c in multiset(candidates)
            && !c.rule.MinimumProfitablePrice?
            && r.recommended == Some(c.stayLength)
            && r.pricePerReservation == Some(ReservationPrice(c))
            && r.costPerReservation == Some(ReservationCost(c.stayLength, costPerNight, perBookingCost))
  {
    var ordered := SortedByStay(candidates);
    assert |multiset(ordered)| == |multiset(candidates)|;
    c := ordered[FirstClearing(ordered).value];
    assert c in multiset(ordered);
  }

  /** Price and cost of the reservation are those of the recommended stay. */
  lemma RecommendedReservation(i: PriceInputs, stayLengths: seq<int>)
    requires stayLengths != [] && forall k :: 0 <= k < |stayLengths| ==> stayLengths[k] > 0
    requires Recommendation(i, stayLengths).recommended.Some?
    ensures var r := Recommendation(i, stayLengths);
            && r.recommended.value in stayLengths && r.recommended.value > 0
            && Clears(i, r.recommended.value)
            && r.pricePerReservation == Some(ReservationPrice(LosCandidateFor(i, r.recommended.value)))
            && r.costPerReservation == Some(ReservationCost(r.recommended.value, i.costPerNight, i.perBookingCost))
    ensures var r := Recommendation(i, stayLengths);
            var exact := ForNights(i.costPerNight, r.recommended.value) + i.perBookingCost;
            -0.005 <= r.costPerReservation.value - exact <= 0.005
  {
    var c := RecommendedCandidate(LosMatrix(i, stayLengths), DecidePrice(i, 1).propertyReference,
                                  i.costPerNight, i.perBookingCost);
    CandidateOf(i, stayLengths, c);
  }

  /** Whatever the inputs: no candidate shorter than the recommended one clears, and without a
      recommendation none does. */
  lemma NothingShorterClears(i: PriceInputs, stayLengths: seq<int>, n: int)
    requires stayLengths != [] && forall k :: 0 <= k < |stayLengths| ==> stayLengths[k] > 0
    requires n in stayLengths
    ensures var r := Recommendation(i, stayLengths).recommended; n > 0 && (r.None? || n < r.value ==> !Clears(i, n))
  {
    var ordered := SortedByStay(LosMatrix(i, stayLengths));
    MatrixInOrder(i, stayLengths);
    RecommendationOf(LosMatrix(i, stayLengths), DecidePrice(i, 1).propertyReference, i.costPerNight, i.perBookingCost);
    var r := Recommendation(i, stayLengths).recommended;
    if r.None? {
      NoneClears(i, stayLengths, ordered);
    } else if n < r.value {
      ShorterDoesNotClear(i, stayLengths, ordered, FirstClearing(ordered).value, n);
    }
  }

  /** The relief is what the recommended stay takes off the floor of the shortest candidate. */
  lemma ReliefOfRecommended(i: PriceInputs, stayLengths: seq<int>, shortest: int)
    requires stayLengths != [] && forall k :: 0 <= k < |stayLengths| ==> stayLengths[k] > 0
    requires shortest in stayLengths && forall n :: n in stayLengths ==> shortest <= n
    requires Recommendation(i, stayLengths).recommended.Some?
    ensures var r := Recommendation(i, stayLengths);
            && r.recommended.value > 0 && r.floorRelief.Some?
            && var exact := DecidePrice(i, shortest).minimumPrice - DecidePrice(i, r.recommended.value).minimumPrice;
               -0.005 <= r.floorRelief.value - exact <= 0.005
  {
    var ordered := SortedByStay(LosMatrix(i, stayLengths));
    MatrixInOrder(i, stayLengths);
    RecommendationOf(LosMatrix(i, stayLengths), DecidePrice(i, 1).propertyReference, i.costPerNight, i.perBookingCost);
    ShortestFirst(i, stayLengths, ordered, shortest);
    ClearsByRule(i, shortest);
    ClearsByRule(i, ordered[FirstClearing(ordered).value].stayLength);
  }

  lemma ShortestFirst(i: PriceInputs, stayLengths: seq<int>, ordered: seq<LosCandidate>, shortest: int)
    requires OrderedCandidates(i, stayLengths, ordered) && shortest > 0
    requires shortest in stayLengths && forall n :: n in stayLengths ==> shortest <= n
    ensures ordered != [] && ordered[0] == LosCandidateFor(i, shortest)
  {
    var k :| 0 <= k < |ordered| && ordered[k] == LosCandidateFor(i, shortest);
    ClearsByRule(i, shortest);
    if k > 0 {
      assert NoLonger(ordered[0], ordered[k]);
    }
  }

  lemma LongestLast(i: PriceInputs, stayLengths: seq<int>, ordered: seq<LosCandidate>, longest: int)
    requires OrderedCandidates(i, stayLengths, ordered) && longest > 0
    requires longest in stayLengths && forall n :: n in stayLengths ==> n <= longest
    ensures ordered != [] && ordered[|ordered| - 1] == LosCandidateFor(i, longest)
  {
    var k :| 0 <= k < |ordered| && ordered[k] == LosCandidateFor(i, longest);
    ClearsByRule(i, longest);
    if k < |ordered| - 1 {
      assert NoLonger(ordered[k], ordered[|ordered| - 1]);
    }
  }

  /** Without a recommendation: the gap is what still separates the floor of the longest candidate from the
      property reference. */
  lemma ResidualGap(i: PriceInputs, stayLengths: seq<int>, longest: int)
    requires stayLengths != [] && forall k :: 0 <= k < |stayLengths| ==> stayLengths[k] > 0
    requires longest in stayLengths && forall n :: n in stayLengths ==> n <= longest
    requires Recommendation(i, stayLengths).recommended.None?
    ensures var r := Recommendation(i, stayLengths);
            && r.component.MinimumStayNotViable?
            && var exact := DecidePrice(i, longest).minimumPrice - DecidePrice(i, 1).propertyReference;
               -0.005 <= r.component.residualGap - exact <= 0.005
  {
    var ordered := SortedByStay(LosMatrix(i, stayLengths));
    MatrixInOrder(i, stayLengths);
    LongestLast(i, stayLengths, ordered, longest);
    ClearsByRule(i, longest);
    GapOf(LosMatrix(i, stayLengths), DecidePrice(i, 1).propertyReference, i.costPerNight, i.perBookingCost);
  }

  lemma GapOf(candidates: seq<LosCandidate>, propertyReference: real, costPerNight: real, perBookingCost: real)
    requires candidates != []
    requires RecommendMinimumStay(candidates, propertyReference, costPerNight, perBookingCost).recommended.None?
    ensures |SortedByStay(candidates)| == |candidates|
    ensures var ordered := SortedByStay(candidates);
            RecommendMinimumStay(candidates, propertyReference, costPerNight, perBookingCost).component ==
            MinimumStayNotViable(Round2(ordered[|ordered| - 1].minimumPrice - propertyReference))
  {
    assert |multiset(SortedByStay(candidates))| == |multiset(candidates)|;
  }

  lemma MarketBelowProperty(i: PriceInputs)
    requires i.discount >= 0.0 && PropertyReference(i) >= 0.0
    ensures MarketReference(i) <= PropertyReference(i)
  {
    var property := PropertyReference(i);
    assert property * i.discount >= 0.0;
    assert property * (1.0 - i.discount) == property - property * i.discount;
  }

  lemma GuardrailsCase(floor: real, market: real, property: real)
    requires market <= property
    ensures var g := ApplyGuardrails(floor, market, property);
            && g.suggestedPrice >= floor
            && (g.suggestedPrice > property <==> g.rule.MinimumProfitablePrice?)
            && (market < g.suggestedPrice <= property <==> g.rule.MinimumFloor?)
  {
  }

  /** A price that clears is never below the floor nor above the property reference, and it is above
      the market reference exactly when its rule is minimum_floor. */
  lemma ClearingPrice(i: PriceInputs, n: int)
    requires n > 0 && i.discount >= 0.0 && PropertyReference(i) >= 0.0 && Clears(i, n)
    ensures FloorPrice(i, n) <= Arbitrate(i, n).suggestedPrice <= PropertyReference(i)
    ensures Arbitrate(i, n).suggestedPrice > MarketReference(i) <==> DecidePrice(i, n).rule.MinimumFloor?
  {
    MarketBelowProperty(i);
    GuardrailsCase(FloorPrice(i, n), MarketReference(i), PropertyReference(i));
  }

  /** Some stay of more than one night among the default candidates clears. */
  predicate LongerStayClears(i: PriceInputs) {
    exists n :: n in [2, 3, 7, 14] && Clears(i, n)
  }

  lemma LongerCandidates(n: int)
    ensures n in LOS_CANDIDATES && n > 1 <==> n in [2, 3, 7, 14]
    ensures 1 in LOS_CANDIDATES
  {
    assert LOS_CANDIDATES[0] == 1;
  }

  lemma LongerThreshold(i: PriceInputs, best: Option<int>)
    requires best.None? <==> NothingClears(i, LOS_CANDIDATES)
    requires best.Some? ==> IsThreshold(i, LOS_CANDIDATES, best.value)
    ensures best.Some? && best.value > 1 <==> !Clears(i, 1) && LongerStayClears(i)
  {
    LongerCandidates(1);
    if best.Some? {
      LongerCandidates(best.value);
    }
    forall n | n in [2, 3, 7, 14] ensures n in LOS_CANDIDATES && n > 1 {
      LongerCandidates(n);
    }
  }

  lemma LongerIsRecommended(i: PriceInputs, recommended: Option<int>)
    requires Meaningful(i) && recommended == Recommendation(i, LOS_CANDIDATES).recommended
    ensures recommended.Some? && recommended.value > 1 <==> !Clears(i, 1) && LongerStayClears(i)
  {
    RecommendationIsTheThreshold(i, LOS_CANDIDATES);
    LongerThreshold(i, recommended);
  }

  lemma LeverCase(rule: Rule, belowMarketBy: real, recommended: Option<int>, anyChannelCompetitive: bool, days: int)
    ensures var status := ClassifyViability(rule, belowMarketBy, recommended, anyChannelCompetitive, false, days);
            status.MinStayLeverAvailable? <==>
              days < 30 && !rule.MarketCompetitive? && recommended.Some? && recommended.value > 1
  {
  }

  /** Stage B classifies with the default candidates: the minimum-stay lever is reported exactly
      when nothing of higher priority applies, one night is priced above the property reference by
      its floor, and some longer candidate clears. */
  lemma MinStayLeverExactly(i: PriceInputs, anyChannelCompetitive: bool, floorBreachDays: int)
    requires Meaningful(i)
    ensures var one := DecidePrice(i, 1);
            var status := ClassifyViability(one.rule, one.belowMarketBy, Recommendation(i, LOS_CANDIDATES).recommended,
                                            anyChannelCompetitive, false, floorBreachDays);
            status.MinStayLeverAvailable? <==>
              floorBreachDays < 30 && one.rule.MinimumProfitablePrice? && LongerStayClears(i)
  {
    var one, r := DecidePrice(i, 1), Recommendation(i, LOS_CANDIDATES);
    LongerIsRecommended(i, r.recommended);
    LeverCase(one.rule, one.belowMarketBy, r.recommended, anyChannelCompetitive, floorBreachDays);
  }
}
