/** Bonus and malus of an apartment's attributes (layers/structural.py). */
module Structural {
  import opened Rounding

  datatype QualityTier = Basic | Standard | Premium | Luxury
  datatype Profile = Profile(tier: QualityTier, rating: real, hasView: bool, hasParking: bool)

  const RATING_BASELINE := 4.0
  const RATING_WEIGHT := 0.10
  const MIN_FACTOR := 0.5
  const MAX_FACTOR := 2.0

  function TierAdjustment(tier: QualityTier): real {
    match tier
    case Basic => -0.15
    case Standard => 0.0
    case Premium => 0.15
    case Luxury => 0.30
  }

  function RatingAdjustment(rating: real): real {
    Round4((rating - RATING_BASELINE) * RATING_WEIGHT)
  }

  function Adjustment(p: Profile): real {
    TierAdjustment(p.tier) + RatingAdjustment(p.rating)
    + (if p.hasView then 0.05 else 0.0) + (if p.hasParking then 0.04 else 0.0)
  }

  function Clamp(x: real): real {
    var atLeast := if x > MIN_FACTOR then x else MIN_FACTOR;
    if atLeast < MAX_FACTOR then atLeast else MAX_FACTOR
  }

  function AttributeFactor(p: Profile): real {
    Round4(Clamp(1.0 + Adjustment(p)))
  }

  lemma Round4Monotone(x: real, y: real)
    requires x <= y
    ensures Round4(x) <= Round4(y)
  {
    NearestMonotone(x * 10000.0, y * 10000.0);
  }

  predicate NoBetter(p: Profile, q: Profile) {
    && TierAdjustment(p.tier) <= TierAdjustment(q.tier)
    && p.rating <= q.rating
    && (p.hasView ==> q.hasView)
    && (p.hasParking ==> q.hasParking)
  }

  lemma AdjustmentMonotone(p: Profile, q: Profile)
    requires NoBetter(p, q)
    ensures Adjustment(p) <= Adjustment(q)
  {
    Round4Monotone((p.rating - RATING_BASELINE) * RATING_WEIGHT, (q.rating - RATING_BASELINE) * RATING_WEIGHT);
  }

  lemma RoundedBounds()
    ensures Round4(MIN_FACTOR) == MIN_FACTOR && Round4(MAX_FACTOR) == MAX_FACTOR
  {
    NearestOfInt(5000);
    NearestOfInt(20000);
  }

  /** The factor stays within its clamp after rounding, and never rewards a worse apartment. */
  lemma FactorIsBoundedAndMonotone(p: Profile, q: Profile)
    requires NoBetter(p, q)
    ensures 0.5 <= AttributeFactor(p) <= AttributeFactor(q) <= 2.0
  {
    AdjustmentMonotone(p, q);
    RoundedBounds();
    Round4Monotone(Clamp(1.0 + Adjustment(p)), Clamp(1.0 + Adjustment(q)));
    Round4Monotone(MIN_FACTOR, Clamp(1.0 + Adjustment(p)));
    Round4Monotone(Clamp(1.0 + Adjustment(q)), MAX_FACTOR);
  }

  lemma RoundedAdjustment(rating: real)
    requires rating == 4.0 || rating == 5.0
    ensures RatingAdjustment(rating) == if rating == 4.0 then 0.0 else 0.1
  {
    NearestOfInt(0);
    NearestOfInt(1000);
  }

  lemma FourDigits(x: real, n: int)
    requires x * 10000.0 == n as real
    ensures Round4(x) == x
  {
    NearestOfInt(n);
  }

  /** What each attribute is worth: a standard apartment rated 4 is worth its market, a view 5% more, a parking
      space 4%, a point of rating 10%, and the tiers from 15% less to 30% more. */
  lemma AttributeSteps(view: bool, parking: bool)
    ensures AttributeFactor(Profile(Standard, 4.0, view, parking)) ==
            (if view then 1.05 else 1.0) + (if parking then 0.04 else 0.0)
    ensures AttributeFactor(Profile(Standard, 5.0, false, false)) == 1.1
    ensures AttributeFactor(Profile(Basic, 4.0, false, false)) == 0.85
    ensures AttributeFactor(Profile(Premium, 4.0, false, false)) == 1.15
    ensures AttributeFactor(Profile(Luxury, 4.0, false, false)) == 1.3
  {
    RoundedAdjustment(4.0);
    RoundedAdjustment(5.0);
    FourDigits(1.0, 10000);
    FourDigits(1.04, 10400);
    FourDigits(1.05, 10500);
    FourDigits(1.09, 10900);
    FourDigits(1.1, 11000);
    FourDigits(0.85, 8500);
    FourDigits(1.15, 11500);
    FourDigits(1.3, 13000);
  }
}
