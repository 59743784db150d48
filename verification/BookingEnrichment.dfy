/** Stage A-bookings (stage_booking_enrichment.py): bookings joined to the cached cost aggregate, and
    why bookings evicted 90 days behind the billing period are never missed. */
module BookingEnrichment {
  import opened Wrappers
  import opened Rounding
  import opened Listings
  import opened Models
  import opened Occupancy
  import opened CostAggregation
  import opened AllocationCorrection

  const RETENTION_DAYS := 90

  type Bookings = map<string, BookingRow>

  datatype State = State(bookings: Bookings, latest: Option<CostAggregate>)
  datatype Event = CostArrives(cost: CostAggregate) | BookingArrives(row: BookingRow)

  const EMPTY := State(map[], None)

  // ---------------------------------------------------------------- the operator's state

  function Evict(bookings: Bookings, cutoff: Date): Bookings {
    map id | id in bookings && bookings[id].checkOut >= cutoff :: bookings[id]
  }

  function PutBooking(s: State, row: BookingRow): State {
    var put := s.bookings[row.bookingId := row];
    s.(bookings := if s.latest.None? then put else Evict(put, s.latest.value.periodStart - RETENTION_DAYS))
  }

  function Next(s: State, e: Event): State {
    match e
    case CostArrives(cost) => s.(latest := Some(cost))
    case BookingArrives(row) => PutBooking(s, row)
  }

  function Run(events: seq<Event>): State {
    if events == [] then EMPTY else Next(Run(events[..|events| - 1]), events[|events| - 1])
  }

  /** The latest version of every booking ever received. */
  function AllBookings(events: seq<Event>): Bookings {
    if events == [] then map[]
    else
      var before := AllBookings(events[..|events| - 1]);
      match events[|events| - 1]
      case CostArrives(_) => before
      case BookingArrives(row) => before[row.bookingId := row]
  }

  /** The cost aggregate with the occupancy figures of these bookings. */
  function Recompute(cost: CostAggregate, bookings: seq<BookingRow>): CostAggregate {
    cost.(
      occupiedNights := |OccupiedDays(bookings, cost.periodStart, cost.periodEnd)|,
      bookingCount := BookingCount(bookings, cost.periodStart, cost.periodEnd),
      avgGuests := AvgGuests(bookings, cost.periodStart, cost.periodEnd))
  }

  /** emitted is the cached aggregate with the figures of the state, read in some order. */
  ghost predicate IsEmission(emitted: CostAggregate, s: State) {
    && s.latest.Some?
    && exists keys ::
         ListsKeys(keys, s.bookings) && emitted == Recompute(s.latest.value, Values(keys, s.bookings))
  }

  class BookingEnrichmentFunction {
    var bookings: Bookings
    var latest: Option<CostAggregate>

    function CurrentState(): State
      reads this
    {
      State(bookings, latest)
    }

    constructor ()
      ensures CurrentState() == EMPTY
    {
      bookings, latest := map[], None;
    }

    method RecomputeFromState(cost: CostAggregate) returns (emitted: CostAggregate)
      requires latest == Some(cost)
      ensures IsEmission(emitted, CurrentState())
    {
      var keys := IterationOrder(bookings);
      var rows := Values(keys, bookings);
      var nights := OccupiedNights(rows, cost.periodStart, cost.periodEnd);
      emitted := cost.(
        occupiedNights := nights,
        bookingCount := BookingCount(rows, cost.periodStart, cost.periodEnd),
        avgGuests := AvgGuests(rows, cost.periodStart, cost.periodEnd));
      assert emitted == Recompute(cost, rows);
    }

    /** Cost side: cache the aggregate and emit it with the figures of the known bookings. */
    method ProcessElement1(value: CostAggregate) returns (emitted: CostAggregate)
      modifies this
      ensures CurrentState() == Next(old(CurrentState()), CostArrives(value))
      ensures IsEmission(emitted, CurrentState())
    {
      latest := Some(value);
      emitted := RecomputeFromState(value);
    }

    /** Removes the bookings that checked out before the cutoff, one by one. */
    method EvictBefore(cutoff: Date)
      modifies `bookings
      ensures bookings == Evict(old(bookings), cutoff)
    {
      var current := bookings;
      var todo := current.Keys;
      while todo != {}
        invariant todo <= current.Keys
        invariant forall id :: id in bookings ==> id in current && bookings[id] == current[id]
        invariant forall id :: id in current ==> (id in bookings <==> id in todo || current[id].checkOut >= cutoff)
        decreases todo
      {
        var id :| id in todo;
        if current[id].checkOut < cutoff {
          bookings := bookings - {id};
        }
        todo := todo - {id};
      }
    }

    /** Booking side: upsert, evict, and re-emit the cached aggregate if there is one. */
    method ProcessElement2(value: BookingRow) returns (emitted: Option<CostAggregate>)
      modifies `bookings
      ensures CurrentState() == Next(old(CurrentState()), BookingArrives(value))
      ensures emitted.Some? <==> latest.Some?
      ensures emitted.Some? ==> IsEmission(emitted.value, CurrentState())
    {
      bookings := bookings[value.bookingId := value];
      var cached := latest;
      if cached.Some? {
        EvictBefore(cached.value.periodStart - RETENTION_DAYS);
      }
      if cached.None? {
        return None;
      }
      var recomputed := RecomputeFromState(cached.value);
      emitted := Some(recomputed);
    }
  }

  // ---------------------------------------------------------------- eviction loses nothing

  /** Some cached period started more than the retention after this day. */
  ghost predicate LongGone(events: seq<Event>, day: Date) {
    exists k :: 0 <= k < |events| && events[k].CostArrives? && day + RETENTION_DAYS < events[k].cost.periodStart
  }

  /** The state holds current versions, and lacks only bookings that checked out long before some
      cached period. */
  ghost predicate KeepsWhatMatters(s: State, events: seq<Event>) {
    && (forall id :: id in s.bookings ==> id in AllBookings(events) && s.bookings[id] == AllBookings(events)[id])
    && (forall id :: id in AllBookings(events) && id !in s.bookings ==>
        LongGone(events, AllBookings(events)[id].checkOut))
    && (s.latest.Some? ==> exists k :: 0 <= k < |events| && events[k] == CostArrives(s.latest.value))
  }

  lemma LongGoneStays(events: seq<Event>, e: Event, day: Date)
    requires LongGone(events, day)
    ensures LongGone(events + [e], day)
  {
    var k :| 0 <= k < |events| && events[k].CostArrives? && day + RETENTION_DAYS < events[k].cost.periodStart;
    assert (events + [e])[k] == events[k];
  }

  lemma EvictedIsLongGone(events: seq<Event>, cost: CostAggregate, k: nat, day: Date)
    requires k < |events| && events[k] == CostArrives(cost) && day < cost.periodStart - RETENTION_DAYS
    ensures LongGone(events, day)
  {
  }

  lemma StepKeepsWhatMatters(events: seq<Event>, e: Event)
    requires KeepsWhatMatters(Run(events), events)
    ensures KeepsWhatMatters(Run(events + [e]), events + [e])
  {
    var after := events + [e];
    assert after[..|events|] == events && after[|events|] == e;
    var s, s' := Run(events), Run(after);
    forall id | id in AllBookings(after) && id !in s'.bookings
      ensures LongGone(after, AllBookings(after)[id].checkOut)
    {
      if id in AllBookings(events) && id !in s.bookings && AllBookings(after)[id] == AllBookings(events)[id] {
        LongGoneStays(events, e, AllBookings(events)[id].checkOut);
      } else {
        var k :| 0 <= k < |events| && events[k] == CostArrives(s.latest.value);
        EvictedIsLongGone(after, s.latest.value, k, AllBookings(after)[id].checkOut);
      }
    }
    if s'.latest.Some? && !e.CostArrives? {
      var k :| 0 <= k < |events| && events[k] == CostArrives(s.latest.value);
      assert after[k] == events[k];
    }
  }

  lemma {:induction false} RunKeepsWhatMatters(events: seq<Event>)
    ensures KeepsWhatMatters(Run(events), events)
  {
    if events != [] {
      var front := events[..|events| - 1];
      RunKeepsWhatMatters(front);
      StepKeepsWhatMatters(front, events[|events| - 1]);
      assert front + [events[|events| - 1]] == events;
    }
  }

  /** The cached period starts at most `fall` days before any period seen. */
  ghost predicate FallsAtMost(events: seq<Event>, start: Date, fall: int) {
    forall k :: 0 <= k < |events| && events[k].CostArrives? ==> events[k].cost.periodStart - fall <= start
  }

  lemma MissingDoNotOverlap(events: seq<Event>, start: Date, end: Date, id: string)
    requires FallsAtMost(events, start, RETENTION_DAYS + 1)
    ensures var s, all := Run(events), AllBookings(events);
            && ((id in s.bookings && Overlaps(s.bookings[id], start, end)) <==>
                (id in all && Overlaps(all[id], start, end)))
            && (id in s.bookings && id in all ==> s.bookings[id] == all[id])
  {
    RunKeepsWhatMatters(events);
    if id in AllBookings(events) && id !in Run(events).bookings {
      var k :| 0 <= k < |events| && events[k].CostArrives?
               && AllBookings(events)[id].checkOut + RETENTION_DAYS < events[k].cost.periodStart;
    }
  }

  /** Pruning refines full history: the figures of every emission are those of the latest version of
      every booking ever received, as long as the cached period starts no more than 91 days before any
      period seen, a day more than the buffer promises. */
  lemma EvictionRefinesFullHistory(events: seq<Event>, emitted: CostAggregate, all: seq<string>)
    requires IsEmission(emitted, Run(events)) && ListsKeys(all, AllBookings(events))
    requires FallsAtMost(events, Run(events).latest.value.periodStart, 91)
    ensures emitted == Recompute(Run(events).latest.value, Values(all, AllBookings(events)))
  {
    var s := Run(events);
    var cost := s.latest.value;
    var keys :| ListsKeys(keys, s.bookings) && emitted == Recompute(cost, Values(keys, s.bookings));
    var default := BookingRow("", "", 0, 0, 0, Cancelled);
    var overlap := OverlapIn(cost.periodStart, cost.periodEnd);
    forall id
      ensures (id in s.bookings && overlap(s.bookings[id])) <==>
              (id in AllBookings(events) && overlap(AllBookings(events)[id]))
      ensures id in s.bookings && overlap(s.bookings[id]) && id in AllBookings(events) ==>
                      s.bookings[id] == AllBookings(events)[id]
    {
      MissingDoNotOverlap(events, cost.periodStart, cost.periodEnd, id);
    }
    FilteredValuesPermute(keys, s.bookings, all, AllBookings(events), overlap, default);
    FiguresOfOverlapping(Values(keys, s.bookings), Values(all, AllBookings(events)), cost.periodStart, cost.periodEnd);
  }

  lemma OneMore(events: seq<Event>, e: Event)
    ensures Run(events + [e]) == Next(Run(events), e)
    ensures AllBookings(events + [e]) == if e.CostArrives? then AllBookings(events)
            else AllBookings(events)[e.row.bookingId := e.row]
  {
    assert (events + [e])[..|events|] == events;
  }

  /** A period, a booking behind its retention, and an earlier period that needs the booking. */
  function FallingBack(cost: CostAggregate, fall: int, row: BookingRow): seq<Event> {
    var later := cost.(periodStart := cost.periodStart + fall, periodEnd := cost.periodEnd + fall);
    [] + [CostArrives(later)] + [BookingArrives(row)] + [CostArrives(cost)]
  }

  lemma FallingBackRuns(cost: CostAggregate, fall: int, row: BookingRow)
    requires fall > RETENTION_DAYS + 1 && row.checkOut == cost.periodStart + 1
    ensures Run(FallingBack(cost, fall, row)) == State(map[], Some(cost))
    ensures AllBookings(FallingBack(cost, fall, row)) == map[row.bookingId := row]
  {
    var later := cost.(periodStart := cost.periodStart + fall, periodEnd := cost.periodEnd + fall);
    OneMore([], CostArrives(later));
    OneMore([] + [CostArrives(later)], BookingArrives(row));
    OneMore([] + [CostArrives(later)] + [BookingArrives(row)], CostArrives(cost));
    var put: Bookings := map[][row.bookingId := row];
    assert Evict(put, later.periodStart - RETENTION_DAYS) == map[];
  }

  /** And no further: for every larger fall there is a run whose emission misses an occupied night. */
  lemma LargerFallMissesANight(cost: CostAggregate, fall: int, row: BookingRow)
    requires fall > 91 && cost.periodStart <= cost.periodEnd
    requires row.status.Confirmed? && row.checkIn == cost.periodStart && row.checkOut == cost.periodStart + 1
    ensures FallsAtMost(FallingBack(cost, fall, row), cost.periodStart, fall)
    ensures Run(FallingBack(cost, fall, row)) == State(map[], Some(cost))
    ensures AllBookings(FallingBack(cost, fall, row)) == map[row.bookingId := row]
    ensures Recompute(cost, []).occupiedNights == 0 && Recompute(cost, [row]).occupiedNights == 1
  {
    FallingBackRuns(cost, fall, row);
    StaySize(row, cost.periodStart, cost.periodEnd);
    assert OccupiedDays([], cost.periodStart, cost.periodEnd) == {};
  }

  // ---------------------------------------------------------------- re-emission and correction

  /** Every emission, however often the cached aggregate is re-emitted, still carries the aggregate of
      the last cost event with its pending corrections, so each is corrected exactly once. */
  lemma ReemissionsAreCorrectedOnce(events: seq<Event>, emitted: CostAggregate)
    requires IsEmission(emitted, Run(events))
    requires IsCents(Run(events).latest.value.fixedCost) && IsCents(Run(events).latest.value.variableCost)
    ensures var base := Run(events).latest.value;
            && CostArrives(base) in events
            && emitted.pending == base.pending
            && Correct(emitted).pending == []
            && Correct(Correct(emitted)) == Correct(emitted)
            && Correct(emitted).fixedCost + Correct(emitted).variableCost ==
               base.fixedCost + base.variableCost + Sum(base.pending, PerNightOf(emitted))
  {
    RunKeepsWhatMatters(events);
    CorrectionAddsPerNight(emitted);
  }

  /** An aggregate as Stage A makes it from some payment lines. */
  ghost predicate IsStageAOutput(cost: CostAggregate) {
    exists lines :: lines != [] && Carries(cost, AggregateCost(lines).value)
  }

  /** On the output of Stage A the amounts are whole cents, so nothing else needs to be known of them. */
  lemma StageAIsCorrectedOnce(events: seq<Event>, emitted: CostAggregate)
    requires IsEmission(emitted, Run(events))
    requires forall k :: 0 <= k < |events| && events[k].CostArrives? ==> IsStageAOutput(events[k].cost)
    ensures var base := Run(events).latest.value;
            && emitted.pending == base.pending
            && Correct(emitted).pending == []
            && Correct(emitted).fixedCost + Correct(emitted).variableCost ==
               base.fixedCost + base.variableCost + Sum(base.pending, PerNightOf(emitted))
  {
    RunKeepsWhatMatters(events);
    var base := Run(events).latest.value;
    var k :| 0 <= k < |events| && events[k] == CostArrives(base);
    var lines :| lines != [] && Carries(base, AggregateCost(lines).value);
    CarriedAmountsAreCents(lines, base);
    ReemissionsAreCorrectedOnce(events, emitted);
  }
}
