/** The booking-window tiers (layers/booking_window.py): the scan of the table, and what it selects. */
module BookingWindow {
  import opened Rounding
  import PricingEngine

  /** Least days to arrival, and the adjustment from there on. */
  datatype Tier = Tier(minDays: int, adjustment: real)

  const TIERS: seq<Tier> := [Tier(45, 0.0), Tier(15, -0.03), Tier(3, 0.0), Tier(1, -0.05), Tier(0, -0.08)]

  /** A date already past counts as today. */
  function DaysLeft(daysToArrival: int): int {
    if daysToArrival < 0 then 0 else daysToArrival
  }

  /** The k-th tier is the one with the greatest threshold that is not above the days left. */
  predicate Selects(k: nat, days: int) {
    && k < |TIERS| && TIERS[k].minDays <= days
    && forall j :: 0 <= j < |TIERS| && TIERS[j].minDays <= days ==> TIERS[j].minDays <= TIERS[k].minDays
  }

  lemma FourDigits(x: real, n: int)
    requires x * 10000.0 == n as real
    ensures Round4(x) == x
  {
    NearestOfInt(n);
  }

  /** Scans the table from the farthest tier and stops at the first that is reached. */
  method ScanTiers(daysToArrival: int) returns (factor: real)
    ensures exists k: nat :: Selects(k, DaysLeft(daysToArrival)) && factor == Round4(1.0 + TIERS[k].adjustment)
  {
    var days := DaysLeft(daysToArrival);
    assert days >= TIERS[4].minDays;
    for k := 0 to |TIERS|
      invariant forall j :: 0 <= j < k ==> days < TIERS[j].minDays
    {
      if days >= TIERS[k].minDays {
        assert Selects(k, days);
        return Round4(1.0 + TIERS[k].adjustment);
      }
    }
    assert false;
  }

  /** The factor of the pricing engine is that of the selected tier. */
  lemma FactorIsSelected(daysToArrival: int, k: nat)
    requires Selects(k, DaysLeft(daysToArrival))
    ensures PricingEngine.BookingWindowFactor(daysToArrival) == Round4(1.0 + TIERS[k].adjustment)
  {
    assert TIERS[0].minDays == 45 && TIERS[1].minDays == 15 && TIERS[2].minDays == 3 && TIERS[3].minDays == 1
           && TIERS[4].minDays == 0;
    FourDigits(1.0, 10000);
    FourDigits(0.97, 9700);
    FourDigits(0.95, 9500);
    FourDigits(0.92, 9200);
  }
}
