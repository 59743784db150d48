/** Occupancy of one apartment in a billing period (occupancy.py). */
module Occupancy {
  import opened Rounding
  import opened Listings
  import opened Models

  datatype BookingStatus = Confirmed | Cancelled

  datatype BookingRow = BookingRow(
    bookingId: string,
    apartmentId: ApartmentId,
    checkIn: Date,
    checkOut: Date,
    guests: int,
    status: BookingStatus)

  /** The stay keeps the night of this day; the night of check-out is not kept. */
  predicate Covers(b: BookingRow, day: Date) {
    b.status.Confirmed? && b.checkIn <= day < b.checkOut
  }

  predicate Overlaps(b: BookingRow, start: Date, end: Date) {
    b.status.Confirmed? && b.checkIn <= end && b.checkOut > start
  }

  predicate IsOccupied(bookings: seq<BookingRow>, day: Date) {
    exists k :: 0 <= k < |bookings| && Covers(bookings[k], day)
  }

  /** The days of the period that some confirmed stay covers. */
  function OccupiedDays(bookings: seq<BookingRow>, start: Date, end: Date): set<Date> {
    set day | start <= day <= end && IsOccupied(bookings, day)
  }

  /** Collects the nights of every confirmed booking into one set, then keeps those of the period. */
  method OccupiedNights(bookings: seq<BookingRow>, start: Date, end: Date) returns (count: nat)
    ensures count == |OccupiedDays(bookings, start, end)|
  {
    var occupied: set<Date> := {};
    for k := 0 to |bookings|
      invariant forall day :: day in occupied <==> IsOccupied(bookings[..k], day)
    {
      var booking := bookings[k];
      ghost var before := occupied;
      if booking.status.Confirmed? {
        var nights := booking.checkOut - booking.checkIn;
        var offset := 0;
        while offset < nights
          invariant 0 <= offset <= if nights >= 0 then nights else 0
          invariant forall day ::
                      day in occupied <==> day in before || booking.checkIn <= day < booking.checkIn + offset
        {
          occupied := occupied + {booking.checkIn + offset};
          offset := offset + 1;
        }
      }
      forall day ensures day in occupied <==> IsOccupied(bookings[..k + 1], day) {
        assert day in occupied <==> day in before || Covers(booking, day);
        OccupiedWithOneMore(bookings, k, day);
      }
    }
    assert bookings[..|bookings|] == bookings;
    var inPeriod := set night | night in occupied && start <= night <= end;
    assert inPeriod == OccupiedDays(bookings, start, end);
    count := |inPeriod|;
  }

  lemma OccupiedWithOneMore(bookings: seq<BookingRow>, k: nat, day: Date)
    requires k < |bookings|
    ensures IsOccupied(bookings[..k + 1], day) <==> IsOccupied(bookings[..k], day) || Covers(bookings[k], day)
  {
    if IsOccupied(bookings[..k], day) {
      var j :| 0 <= j < k && Covers(bookings[..k][j], day);
      assert bookings[..k + 1][j] == bookings[j];
    }
    if Covers(bookings[k], day) {
      assert bookings[..k + 1][k] == bookings[k];
    }
    if IsOccupied(bookings[..k + 1], day) {
      var j :| 0 <= j < k + 1 && Covers(bookings[..k + 1][j], day);
      assert j < k ==> bookings[..k][j] == bookings[j];
    }
  }

  function OverlapIn(start: Date, end: Date): BookingRow -> bool {
    (b: BookingRow) => Overlaps(b, start, end)
  }

  function Overlapping(bookings: seq<BookingRow>, start: Date, end: Date): seq<BookingRow> {
    Filter(bookings, OverlapIn(start, end))
  }

  function BookingCount(bookings: seq<BookingRow>, start: Date, end: Date): nat {
    |Overlapping(bookings, start, end)|
  }

  function Guests(b: BookingRow): real { b.guests as real }

  function AvgGuests(bookings: seq<BookingRow>, start: Date, end: Date): real {
    var overlapping := Overlapping(bookings, start, end);
    if overlapping == [] then 0.0 else Round2(Sum(overlapping, Guests) / |overlapping| as real)
  }

  // ---------------------------------------------------------------- laws

  /** Neither order nor repetition of the bookings matters, only which overlapping ones there are. */
  lemma OccupancyOfOverlapping(a: seq<BookingRow>, b: seq<BookingRow>, start: Date, end: Date)
    requires forall x :: x in Overlapping(a, start, end) <==> x in Overlapping(b, start, end)
    ensures OccupiedDays(a, start, end) == OccupiedDays(b, start, end)
  {
    forall day | start <= day <= end ensures IsOccupied(a, day) <==> IsOccupied(b, day) {
      SameOverlapping(a, b, start, end, day);
      SameOverlapping(b, a, start, end, day);
    }
  }

  lemma SameOverlapping(a: seq<BookingRow>, b: seq<BookingRow>, start: Date, end: Date, day: Date)
    requires forall x :: x in Overlapping(a, start, end) ==> x in Overlapping(b, start, end)
    requires start <= day <= end
    ensures IsOccupied(a, day) ==> IsOccupied(b, day)
  {
    if IsOccupied(a, day) {
      var k :| 0 <= k < |a| && Covers(a[k], day);
      assert OverlapIn(start, end)(a[k]);
      assert a[k] in Overlapping(a, start, end);
      var j :| 0 <= j < |b| && b[j] == a[k];
    }
  }

  function DaysFrom(start: Date, end: Date): (days: set<Date>)
    ensures forall day :: day in days <==> start <= day <= end
    ensures |days| == if start <= end then end - start + 1 else 0
    decreases end - start
  {
    if start > end then {} else DaysFrom(start, end - 1) + {end}
  }

  /** A period never has more occupied nights than available days. */
  lemma OccupancyIsBounded(bookings: seq<BookingRow>, start: Date, end: Date)
    requires start <= end + 1
    ensures |OccupiedDays(bookings, start, end)| <= end - start + 1
  {
    SubsetSize(OccupiedDays(bookings, start, end), DaysFrom(start, end));
  }

  /** A night of the period is occupied exactly when some counted booking of at least one night exists. */
  lemma OccupiedIffStayCounted(bookings: seq<BookingRow>, start: Date, end: Date)
    ensures |OccupiedDays(bookings, start, end)| > 0 <==>
            start <= end && exists b :: b in Overlapping(bookings, start, end) && b.checkIn < b.checkOut
  {
    var days := OccupiedDays(bookings, start, end);
    if |days| > 0 {
      var day :| day in days;
      var k :| 0 <= k < |bookings| && Covers(bookings[k], day);
      assert OverlapIn(start, end)(bookings[k]);
      assert bookings[k] in Overlapping(bookings, start, end);
    }
    if b :| start <= end && b in Overlapping(bookings, start, end) && b.checkIn < b.checkOut {
      assert OverlapIn(start, end)(b);
      var day := if b.checkIn < start then start else b.checkIn;
      var k :| 0 <= k < |bookings| && bookings[k] == b;
      assert Covers(bookings[k], day);
      assert day in days;
    }
  }

  /** With stays of at least one night and a period of at least one day, nights and bookings are
      positive together. */
  lemma NightsIffBookings(bookings: seq<BookingRow>, start: Date, end: Date)
    requires start <= end && forall b :: b in bookings ==> b.checkIn < b.checkOut
    ensures |OccupiedDays(bookings, start, end)| > 0 <==> BookingCount(bookings, start, end) > 0
  {
    OccupiedIffStayCounted(bookings, start, end);
    var overlapping := Overlapping(bookings, start, end);
    if overlapping != [] {
      assert overlapping[0] in overlapping;
    }
  }

  /** How many nights of the stay fall in the period. */
  function ClippedLength(b: BookingRow, start: Date, end: Date): nat {
    var first := if b.checkIn < start then start else b.checkIn;
    var last := if b.checkOut - 1 < end then b.checkOut - 1 else end;
    if b.status.Confirmed? && first <= last then last - first + 1 else 0
  }

  function TotalClipped(bookings: seq<BookingRow>, start: Date, end: Date): nat {
    if bookings == [] then 0
    else TotalClipped(bookings[..|bookings| - 1], start, end) + ClippedLength(bookings[|bookings| - 1], start, end)
  }

  ghost predicate DisjointStays(bookings: seq<BookingRow>) {
    forall i, j, day :: 0 <= i < j < |bookings| && Covers(bookings[i], day) ==> !Covers(bookings[j], day)
  }

  lemma StaySize(b: BookingRow, start: Date, end: Date)
    ensures |OccupiedDays([b], start, end)| == ClippedLength(b, start, end)
  {
    var first := if b.checkIn < start then start else b.checkIn;
    var last := if b.checkOut - 1 < end then b.checkOut - 1 else end;
    forall day ensures IsOccupied([b], day) <==> Covers(b, day) {
      if Covers(b, day) { assert Covers([b][0], day); }
    }
    if b.status.Confirmed? && first <= last {
      assert OccupiedDays([b], start, end) == DaysFrom(first, last);
    } else {
      assert OccupiedDays([b], start, end) == {};
    }
  }

  lemma OccupiedByLast(bookings: seq<BookingRow>, start: Date, end: Date)
    requires bookings != []
    ensures var front, last := bookings[..|bookings| - 1], bookings[|bookings| - 1];
            OccupiedDays(bookings, start, end) == OccupiedDays(front, start, end) + OccupiedDays([last], start, end)
  {
    var front, last := bookings[..|bookings| - 1], bookings[|bookings| - 1];
    forall day ensures IsOccupied(bookings, day) <==> IsOccupied(front, day) || IsOccupied([last], day) {
      assert bookings[..|bookings|] == bookings;
      OccupiedWithOneMore(bookings, |front|, day);
      if Covers(last, day) { assert Covers([last][0], day); }
    }
  }

  lemma DisjointFromLast(bookings: seq<BookingRow>, start: Date, end: Date)
    requires bookings != [] && DisjointStays(bookings)
    ensures OccupiedDays(bookings[..|bookings| - 1], start, end) !! OccupiedDays([bookings[|bookings| - 1]], start, end)
  {
    var front, last := bookings[..|bookings| - 1], bookings[|bookings| - 1];
    forall day | day in OccupiedDays(front, start, end) ensures day !in OccupiedDays([last], start, end) {
      var k :| 0 <= k < |front| && Covers(front[k], day);
      assert Covers(bookings[k], day);
      assert !Covers(bookings[|bookings| - 1], day);
    }
  }

  lemma UnionSize<T>(a: set<T>, b: set<T>)
    requires a !! b
    ensures |a + b| == |a| + |b|
  {
  }

  /** When no two stays share a night, the count is the sum of the clipped stay lengths. */
  lemma {:induction false} DisjointStaysAddUp(bookings: seq<BookingRow>, start: Date, end: Date)
    requires DisjointStays(bookings)
    ensures |OccupiedDays(bookings, start, end)| == TotalClipped(bookings, start, end)
  {
    if bookings == [] {
      assert OccupiedDays(bookings, start, end) == {};
    } else {
      var front, last := bookings[..|bookings| - 1], bookings[|bookings| - 1];
      assert DisjointStays(front) by {
        forall i, j, day | 0 <= i < j < |front| && Covers(front[i], day) ensures !Covers(front[j], day) {
          assert Covers(bookings[i], day);
        }
      }
      DisjointStaysAddUp(front, start, end);
      StaySize(last, start, end);
      OccupiedByLast(bookings, start, end);
      DisjointFromLast(bookings, start, end);
      UnionSize(OccupiedDays(front, start, end), OccupiedDays([last], start, end));
    }
  }

  /** All three figures are the same for the same overlapping bookings in any order. */
  lemma FiguresOfOverlapping(a: seq<BookingRow>, b: seq<BookingRow>, start: Date, end: Date)
    requires multiset(Overlapping(a, start, end)) == multiset(Overlapping(b, start, end))
    ensures OccupiedDays(a, start, end) == OccupiedDays(b, start, end)
    ensures BookingCount(a, start, end) == BookingCount(b, start, end)
    ensures AvgGuests(a, start, end) == AvgGuests(b, start, end)
  {
    SameMembers(Overlapping(a, start, end), Overlapping(b, start, end));
    OccupancyOfOverlapping(a, b, start, end);
    SumPermuted(Overlapping(a, start, end), Overlapping(b, start, end), Guests);
  }

  /** So reordering the bookings changes none of them. */
  lemma OrderDoesNotMatter(a: seq<BookingRow>, b: seq<BookingRow>, start: Date, end: Date)
    requires multiset(a) == multiset(b)
    ensures OccupiedDays(a, start, end) == OccupiedDays(b, start, end)
    ensures BookingCount(a, start, end) == BookingCount(b, start, end)
    ensures AvgGuests(a, start, end) == AvgGuests(b, start, end)
  {
    FilterPermuted(a, b, OverlapIn(start, end));
    FiguresOfOverlapping(a, b, start, end);
  }
}
