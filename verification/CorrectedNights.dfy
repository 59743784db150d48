/** What a deferred concept costs a night once the bookings are known: each by its own measure, in its own
    bucket, with the nights and bookings of the booking stage. */
module CorrectedNights {
  import opened Rounding
  import opened Listings
  import opened Models
  import opened PricingEngine
  import opened CostAggregation
  import opened AllocationCorrection
  import opened Occupancy
  import opened BookingEnrichment
  import ProfitGuarantee

  /** As many parts at this share are the total, to half a cent each. */
  predicate Recovers(share: real, parts: int, total: real) {
    WithinHalfCents(share * parts as real, total, parts as real)
  }

  /** The concept's cost of a night: over the occupied nights or the bookings where it asks for them and
      there are any, over the days of the period otherwise, nothing in an empty period. */
  predicate IsShareOf(c: PendingCorrection, nights: int, bookings: int, days: int, share: real) {
    var byNights := c.allocationMethod.OccupiedNight? && nights > 0;
    var byBookings := c.allocationMethod.ByBooking? && bookings > 0;
    && (byNights ==> Recovers(share, nights, c.monthlyEquivalent))
    && (byBookings ==> Recovers(share, bookings, c.monthlyEquivalent))
    && (!byNights && !byBookings && days > 0 ==> Recovers(share, days, c.monthlyEquivalent))
    && (!byNights && !byBookings && days <= 0 ==> share == 0.0)
  }

  lemma ShareOver(total: real, parts: int, share: real)
    requires share == PerDay(total, parts)
    ensures parts > 0 ==> Recovers(share, parts, total)
    ensures parts <= 0 ==> share == 0.0
  {
    if parts > 0 {
      SpreadError(total, parts, share);
    }
  }

  lemma ShareOfConcept(value: CostAggregate, c: PendingCorrection)
    ensures IsShareOf(c, value.occupiedNights, value.bookingCount, value.availableDays, PerNightOf(value)(c))
  {
    ShareOver(c.monthlyEquivalent, Denominator(value, c), PerNightOf(value)(c));
  }

  predicate AddsToFixed(c: PendingCorrection) { c.behavior.FixedCost? }

  predicate AddsToVariable(c: PendingCorrection) { !c.behavior.FixedCost? }

  /** Each bucket grows by the shares of its own concepts, the fixed ones in the fixed bucket and all others
      in the variable one; nothing is left pending and nothing else changes. */
  ghost predicate GrowsByShares(value: CostAggregate, corrected: CostAggregate, nights: int, bookings: int,
                                share: PendingCorrection -> real)
  {
    && (forall c :: c in value.pending ==> IsShareOf(c, nights, bookings, value.availableDays, share(c)))
    && corrected == value.(fixedCost := value.fixedCost + Sum(Filter(value.pending, AddsToFixed), share),
                           variableCost := value.variableCost + Sum(Filter(value.pending, AddsToVariable), share),
                           pending := [])
  }

  lemma BucketIsRounded(value: CostAggregate, keep: PendingCorrection -> bool, bucket: real,
                        masked: PendingCorrection -> real)
    requires IsCents(bucket)
    requires forall c :: masked(c) == if keep(c) then PerNightOf(value)(c) else 0.0
    ensures Round2(bucket + Sum(value.pending, masked)) ==
            bucket + Sum(Filter(value.pending, keep), PerNightOf(value))
  {
    ZeroIsCents();
    forall c | c in value.pending ensures IsCents(masked(c)) {
      PerDayIsCents(c.monthlyEquivalent, Denominator(value, c));
    }
    ProfitGuarantee.SumOfCents(value.pending, masked);
    CentsAdd(bucket, Sum(value.pending, masked));
    Round2OfCents(bucket + Sum(value.pending, masked));
    SumFiltered(value.pending, keep, PerNightOf(value), masked);
  }

  lemma FixedBucket(value: CostAggregate)
    requires IsCents(value.fixedCost)
    ensures Correct(value).fixedCost ==
            value.fixedCost + Sum(Filter(value.pending, AddsToFixed), PerNightOf(value))
  {
    BucketIsRounded(value, AddsToFixed, value.fixedCost, FixedShare(value));
  }

  lemma VariableBucket(value: CostAggregate)
    requires IsCents(value.variableCost)
    ensures Correct(value).variableCost ==
            value.variableCost + Sum(Filter(value.pending, AddsToVariable), PerNightOf(value))
  {
    BucketIsRounded(value, AddsToVariable, value.variableCost, VariableShare(value));
  }

  /** The correction, on the whole cents Stage A emits. */
  lemma CorrectionByBucket(value: CostAggregate)
    requires IsCents(value.fixedCost) && IsCents(value.variableCost)
    ensures GrowsByShares(value, Correct(value), value.occupiedNights, value.bookingCount, PerNightOf(value))
  {
    FixedBucket(value);
    VariableBucket(value);
    forall c | c in value.pending
      ensures IsShareOf(c, value.occupiedNights, value.bookingCount, value.availableDays, PerNightOf(value)(c))
    {
      ShareOfConcept(value, c);
    }
  }

  // ---------------------------------------------------------------- the figures of the bookings

  predicate KeptBySome(bookings: Bookings, day: Date) {
    exists id :: id in bookings && Covers(bookings[id], day)
  }

  /** The days of the period on which some confirmed stay keeps the night. */
  function NightsKept(bookings: Bookings, start: Date, end: Date): set<Date> {
    set day | start <= day <= end && KeptBySome(bookings, day)
  }

  /** The confirmed bookings with a day in the period, the day of check-out aside. */
  function BookingsIn(bookings: Bookings, start: Date, end: Date): set<string> {
    set id | id in bookings && bookings[id].status.Confirmed?
             && bookings[id].checkIn <= end && start < bookings[id].checkOut
  }

  lemma NightsOfValues(bookings: Bookings, keys: seq<string>, start: Date, end: Date)
    requires ListsKeys(keys, bookings)
    ensures OccupiedDays(Values(keys, bookings), start, end) == NightsKept(bookings, start, end)
  {
    var rows := Values(keys, bookings);
    forall day ensures IsOccupied(rows, day) <==> KeptBySome(bookings, day) {
      if k :| 0 <= k < |rows| && Covers(rows[k], day) {
        assert keys[k] in bookings && rows[k] == bookings[keys[k]];
      }
      if id :| id in bookings && Covers(bookings[id], day) {
        var k :| 0 <= k < |keys| && keys[k] == id;
        assert Covers(rows[k], day);
      }
    }
  }

  /** Those of the bookings that are listed. */
  function Listed(keys: seq<string>, ids: set<string>): set<string> {
    set id | id in keys && id in ids
  }

  lemma OneMoreListed(front: seq<string>, last: string, ids: set<string>)
    requires last !in front
    ensures |Listed(front + [last], ids)| == |Listed(front, ids)| + if last in ids then 1 else 0
  {
    assert Listed(front + [last], ids) == if last in ids then Listed(front, ids) + {last} else Listed(front, ids);
  }

  lemma OneMoreCounted(front: seq<BookingRow>, last: BookingRow, start: Date, end: Date)
    ensures BookingCount(front + [last], start, end) ==
            BookingCount(front, start, end) + if Overlaps(last, start, end) then 1 else 0
  {
    assert (front + [last])[..|front|] == front;
  }

  lemma {:induction false} CountOfValues(bookings: Bookings, keys: seq<string>, start: Date, end: Date)
    requires Distinct(keys) && forall id :: id in keys ==> id in bookings
    ensures BookingCount(Values(keys, bookings), start, end) == |Listed(keys, BookingsIn(bookings, start, end))|
  {
    if keys == [] {
      assert Listed(keys, BookingsIn(bookings, start, end)) == {};
    } else {
      var front, last := keys[..|keys| - 1], keys[|keys| - 1];
      assert keys == front + [last];
      CountOfValues(bookings, front, start, end);
      assert Values(keys, bookings) == Values(front, bookings) + [bookings[last]];
      OneMoreCounted(Values(front, bookings), bookings[last], start, end);
      OneMoreListed(front, last, BookingsIn(bookings, start, end));
    }
  }

  /** The guests of a confirmed booking with a day in the period. */
  function GuestsIn(start: Date, end: Date): BookingRow -> real {
    (b: BookingRow) => if b.status.Confirmed? && b.checkIn <= end && start < b.checkOut then b.guests as real else 0.0
  }

  /** As many bookings with this many guests have the guests of all of them, to half a cent each. */
  predicate AveragesGuests(average: real, count: int, total: real) {
    if count > 0 then WithinHalfCents(average * count as real, total, count as real) else average == 0.0
  }

  lemma AverageSpread(average: real, count: int, total: real)
    requires if count > 0 then average == Share(total, count as real) else average == 0.0
    ensures AveragesGuests(average, count, total)
  {
    if count > 0 {
      SpreadErrorReal(total, count as real, average);
    }
  }

  lemma AverageIsShare(bookings: seq<BookingRow>, start: Date, end: Date, total: real)
    requires total == Sum(Overlapping(bookings, start, end), Guests)
    ensures var count := BookingCount(bookings, start, end);
            if count > 0 then AvgGuests(bookings, start, end) == Share(total, count as real)
            else AvgGuests(bookings, start, end) == 0.0
  {
  }

  lemma GuestsAverage(bookings: seq<BookingRow>, start: Date, end: Date)
    ensures AveragesGuests(AvgGuests(bookings, start, end), BookingCount(bookings, start, end),
                           Sum(bookings, GuestsIn(start, end)))
  {
    SumFiltered(bookings, OverlapIn(start, end), Guests, GuestsIn(start, end));
    AverageIsShare(bookings, start, end, Sum(bookings, GuestsIn(start, end)));
    AverageSpread(AvgGuests(bookings, start, end), BookingCount(bookings, start, end),
                  Sum(bookings, GuestsIn(start, end)));
  }

  /** What the booking stage emits: the nights some booking of the state keeps, the bookings of the state
      that lie in the period. */
  lemma EmittedFigures(emitted: CostAggregate, s: State)
    requires IsEmission(emitted, s)
    ensures emitted.occupiedNights == |NightsKept(s.bookings, emitted.periodStart, emitted.periodEnd)|
    ensures emitted.bookingCount == |BookingsIn(s.bookings, emitted.periodStart, emitted.periodEnd)|
    ensures emitted == s.latest.value.(occupiedNights := emitted.occupiedNights, bookingCount := emitted.bookingCount,
                                       avgGuests := emitted.avgGuests)
    ensures exists keys :: ListsKeys(keys, s.bookings)
                           && AveragesGuests(emitted.avgGuests, emitted.bookingCount,
                                             Sum(Values(keys, s.bookings),
                                                 GuestsIn(emitted.periodStart, emitted.periodEnd)))
  {
    var cost := s.latest.value;
    var keys :| ListsKeys(keys, s.bookings) && emitted == Recompute(cost, Values(keys, s.bookings));
    GuestsAverage(Values(keys, s.bookings), cost.periodStart, cost.periodEnd);
    NightsOfValues(s.bookings, keys, cost.periodStart, cost.periodEnd);
    CountOfValues(s.bookings, keys, cost.periodStart, cost.periodEnd);
    var ids := BookingsIn(s.bookings, cost.periodStart, cost.periodEnd);
    assert Listed(keys, ids) == ids;
  }

  /** What reaches the next stage: the last cost event's aggregate, its deferred concepts spread over the
      nights and the bookings of the state, each in its own bucket. */
  lemma EmissionIsCorrected(events: seq<Event>, emitted: CostAggregate)
    requires IsEmission(emitted, Run(events))
    requires forall k :: 0 <= k < |events| && events[k].CostArrives? ==> IsStageAOutput(events[k].cost)
    ensures var s := Run(events);
            var nights := |NightsKept(s.bookings, emitted.periodStart, emitted.periodEnd)|;
            var bookings := |BookingsIn(s.bookings, emitted.periodStart, emitted.periodEnd)|;
            && GrowsByShares(emitted, Correct(emitted), nights, bookings, PerNightOf(emitted))
            && emitted.fixedCost == s.latest.value.fixedCost && emitted.variableCost == s.latest.value.variableCost
            && emitted.pending == s.latest.value.pending
  {
    EmittedFigures(emitted, Run(events));
    EmittedInCents(events, emitted);
    CorrectionByBucket(emitted);
  }

  lemma EmittedInCents(events: seq<Event>, emitted: CostAggregate)
    requires IsEmission(emitted, Run(events))
    requires forall k :: 0 <= k < |events| && events[k].CostArrives? ==> IsStageAOutput(events[k].cost)
    ensures IsCents(emitted.fixedCost) && IsCents(emitted.variableCost)
  {
    RunKeepsWhatMatters(events);
    var base := Run(events).latest.value;
    var k :| 0 <= k < |events| && events[k] == CostArrives(base);
    var lines :| lines != [] && Carries(base, AggregateCost(lines).value);
    CarriedAmountsAreCents(lines, base);
  }

  // ---------------------------------------------------------------- an instance

  /** 600 EUR in a period of 30 days with 20 occupied nights and 4 bookings. */
  function Month(behavior: Behavior, allocation: AllocationMethod): CostAggregate {
    CostAggregate("flat", 10.0, 5.0, 0.0, 600.0, 30, 1, 1, 30, 0.0, 0.0, 1, 0, 1.0, 0.0, TotalRevenue, [],
                  NettedCosts(0.0, 0.0, 0.0, 0.0), 20, 4, 2.0,
                  [PendingCorrection(Cleaning, behavior, allocation, 600.0)])
  }

  lemma MonthCorrected(behavior: Behavior, allocation: AllocationMethod, share: real)
    requires share == PerNightOf(Month(behavior, allocation))(Month(behavior, allocation).pending[0])
    requires IsCents(10.0 + share) && IsCents(5.0 + share) && IsCents(10.0) && IsCents(5.0)
    ensures var corrected := Correct(Month(behavior, allocation));
            && corrected.fixedCost == (if behavior.FixedCost? then 10.0 + share else 10.0)
            && corrected.variableCost == (if behavior.FixedCost? then 5.0 else 5.0 + share)
  {
    var value := Month(behavior, allocation);
    assert value.pending[..0] == [];
    assert Sum(value.pending, FixedShare(value)) == if behavior.FixedCost? then share else 0.0;
    assert Sum(value.pending, VariableShare(value)) == if behavior.FixedCost? then 0.0 else share;
    Round2OfCents(10.0 + share);
    Round2OfCents(5.0 + share);
    Round2OfCents(10.0);
    Round2OfCents(5.0);
  }

  /** 30 EUR a night by occupied nights in the fixed bucket, 150 by bookings in the variable one. */
  lemma ByNightsAndByBookings()
    ensures Correct(Month(FixedCost, OccupiedNight)).fixedCost == 40.0
    ensures Correct(Month(FixedCost, OccupiedNight)).variableCost == 5.0
    ensures Correct(Month(VariableCost, ByBooking)).fixedCost == 10.0
    ensures Correct(Month(VariableCost, ByBooking)).variableCost == 155.0
  {
    NearestOfInt(3000);
    NearestOfInt(15000);
    assert (10.0 * 100.0).Floor == 1000 && (5.0 * 100.0).Floor == 500;
    assert (40.0 * 100.0).Floor == 4000 && (35.0 * 100.0).Floor == 3500;
    assert (160.0 * 100.0).Floor == 16000 && (155.0 * 100.0).Floor == 15500;
    MonthCorrected(FixedCost, OccupiedNight, 30.0);
    MonthCorrected(VariableCost, ByBooking, 150.0);
  }
}
