/** Every figure of an aggregate, told from the payment lines alone: which bucket each line goes to, what of
    it counts there, and what was rounded. */
module AggregateExactly {
  import opened Wrappers
  import opened Rounding
  import opened Listings
  import opened PricingEngine
  import opened Models
  import opened CostAggregation
  import opened CostHistory
  import opened AllocationCorrection
  import CostEnrichmentStage
  import Strategies
  import Structural

  // ---------------------------------------------------------------- where a line goes

  datatype Bucket = FixedBucket | VariableBucket | BookingBucket | DeferredBucket | PercentageBucket

  /** By its calculation base, then by its recurrence, then by its allocation, then by its behavior. */
  function BucketOf(line: PaymentLine): Bucket {
    match line.calculationBase
    case PctRevenue | PctAdjustedRevenue => PercentageBucket
    case FixedAmount | PerNight | PerGuest =>
      if line.recurrence == OneOff then BookingBucket
      else
        match line.allocationMethod
        case OccupiedNight | ByBooking => DeferredBucket
        case Direct | CalendarDay | AvailableNight | ByRevenue | Weighted =>
          if line.behavior == FixedCost then FixedBucket else VariableBucket
  }

  function In(bucket: Bucket): PaymentLine -> bool {
    (line: PaymentLine) => BucketOf(line) == bucket
  }

  function InPeriod(end: Date, bucket: Bucket): PaymentLine -> bool {
    (line: PaymentLine) => line.periodEnd == end && BucketOf(line) == bucket
  }

  lemma BucketsAre(line: PaymentLine)
    ensures IsFixedNow(line) <==> In(FixedBucket)(line)
    ensures IsVariableNow(line) <==> In(VariableBucket)(line)
    ensures IsOneTime(line) <==> In(BookingBucket)(line)
    ensures IsDeferred(line) <==> In(DeferredBucket)(line)
    ensures IsPercentage(line) <==> In(PercentageBucket)(line)
  {
  }

  // ---------------------------------------------------------------- sums over the lines of the period

  function Amount(line: PaymentLine): real { line.amountGross }

  function One(line: PaymentLine): real { 1.0 }

  /** The line's value where it belongs to the period and is picked. */
  function Where(end: Date, pick: PaymentLine -> bool, value: PaymentLine -> real): PaymentLine -> real {
    (line: PaymentLine) => if line.periodEnd == end && pick(line) then value(line) else 0.0
  }

  /** The total of the values of the picked lines of the period. */
  function Total(lines: seq<PaymentLine>, end: Date, pick: PaymentLine -> bool, value: PaymentLine -> real): real {
    Sum(lines, Where(end, pick, value))
  }

  lemma {:induction false} FilterTwice(lines: seq<PaymentLine>, first: PaymentLine -> bool,
                                       second: PaymentLine -> bool, both: PaymentLine -> bool)
    requires forall line :: both(line) <==> first(line) && second(line)
    ensures Filter(Filter(lines, first), second) == Filter(lines, both)
  {
    if lines != [] {
      var front, last := lines[..|lines| - 1], lines[|lines| - 1];
      FilterTwice(front, first, second, both);
      assert (Filter(front, first) + [last])[..|Filter(front, first)|] == Filter(front, first);
    }
  }

  lemma TotalIs(lines: seq<PaymentLine>, end: Date, keep: PaymentLine -> bool, pick: PaymentLine -> bool,
                value: PaymentLine -> real, amount: PaymentLine -> real)
    requires forall line :: keep(line) <==> pick(line)
    requires forall line :: value(line) == amount(line)
    ensures TotalOf(Filter(lines, Ending(end)), keep, value) == Total(lines, end, pick, amount)
  {
    var both := (line: PaymentLine) => line.periodEnd == end && pick(line);
    FilterTwice(lines, Ending(end), keep, both);
    SumAgrees(Filter(lines, both), value, amount);
    SumFiltered(lines, both, amount, Where(end, pick, amount));
  }

  // ---------------------------------------------------------------- the figures

  /** A cost of a night: over the days of the period it is the total to half a cent a day; 0 without days. */
  predicate SpreadOver(share: real, days: int, total: real) {
    if days > 0 then WithinHalfCents(share * days as real, total, days as real) else share == 0.0
  }

  lemma SpreadPerDay(share: real, days: int, total: real)
    requires share == PerDay(total, days)
    ensures SpreadOver(share, days, total)
  {
    if days > 0 {
      SpreadError(total, days, share);
    }
  }

  /** end is the greatest period end of the lines. */
  ghost predicate IsLatestEnd(lines: seq<PaymentLine>, end: Date) {
    && (exists k :: 0 <= k < |lines| && lines[k].periodEnd == end)
    && forall k :: 0 <= k < |lines| ==> lines[k].periodEnd <= end
  }

  predicate Any(line: PaymentLine) { true }

  predicate ToOtas(line: PaymentLine) { line.concept == OtaFee || line.concept == ChannelManager }

  predicate ToCleaners(line: PaymentLine) { line.concept == Cleaning }

  predicate ToLaundries(line: PaymentLine) { line.concept == Laundry }

  predicate OfBookings(line: PaymentLine) { line.scope == BookingScope }

  /** The two costs of a night: the fixed and the variable lines a month, nothing of any other. */
  ghost predicate BucketsExactly(g: Aggregation, lines: seq<PaymentLine>) {
    && SpreadOver(g.fixedCost, g.availableDays, Total(lines, g.periodEnd, In(FixedBucket), LinePerMonth))
    && SpreadOver(g.variableCost, g.availableDays, Total(lines, g.periodEnd, In(VariableBucket), LinePerMonth))
  }

  /** The amounts that may be netted: gross amounts of every line of these concepts, whatever its bucket. */
  ghost predicate NettedExactly(g: Aggregation, lines: seq<PaymentLine>) {
    && SpreadOver(g.netted.ota, g.availableDays, Total(lines, g.periodEnd, ToOtas, Amount))
    && SpreadOver(g.netted.cleaning, g.availableDays, Total(lines, g.periodEnd, ToCleaners, Amount))
    && SpreadOver(g.netted.laundry, g.availableDays, Total(lines, g.periodEnd, ToLaundries, Amount))
    && SpreadOver(g.netted.bookingScope, g.availableDays, Total(lines, g.periodEnd, OfBookings, Amount))
  }

  /** As many at this share as there are come to the total, to half a cent each; 0 if there are none. */
  predicate AveragesTo(share: real, count: real, total: real) {
    && count >= 0.0
    && (count > 0.0 ==> WithinHalfCents(share * count, total, count))
    && (count == 0.0 ==> share == 0.0)
  }

  /** The cost of one booking is the average over the one-off lines, however many there are. */
  ghost predicate BookingExactly(g: Aggregation, lines: seq<PaymentLine>) {
    AveragesTo(g.perBookingCost, Total(lines, g.periodEnd, In(BookingBucket), One),
               Total(lines, g.periodEnd, In(BookingBucket), Amount))
  }

  lemma BucketsFromLines(lines: seq<PaymentLine>, g: Aggregation)
    requires lines != [] && AggregateCost(lines) == Some(g)
    ensures BucketsExactly(g, lines)
  {
    var end := LatestEnd(lines);
    MatchingIsEnding(lines, end);
    forall line: PaymentLine
      ensures IsFixedNow(line) <==> In(FixedBucket)(line)
      ensures IsVariableNow(line) <==> In(VariableBucket)(line)
      ensures MonthlyEquivalent(line) == LinePerMonth(line)
    {
      BucketsAre(line);
      MonthlyIsPerMonth(line);
    }
    TotalIs(lines, end, IsFixedNow, In(FixedBucket), MonthlyEquivalent, LinePerMonth);
    TotalIs(lines, end, IsVariableNow, In(VariableBucket), MonthlyEquivalent, LinePerMonth);
    SpreadPerDay(g.fixedCost, g.availableDays, Total(lines, end, In(FixedBucket), LinePerMonth));
    SpreadPerDay(g.variableCost, g.availableDays, Total(lines, end, In(VariableBucket), LinePerMonth));
  }

  lemma NettedFromLines(lines: seq<PaymentLine>, g: Aggregation)
    requires lines != [] && AggregateCost(lines) == Some(g)
    ensures NettedExactly(g, lines)
  {
    var end := LatestEnd(lines);
    MatchingIsEnding(lines, end);
    TotalIs(lines, end, IsOtaRelated, ToOtas, Gross, Amount);
    TotalIs(lines, end, IsCleaning, ToCleaners, Gross, Amount);
    TotalIs(lines, end, IsLaundry, ToLaundries, Gross, Amount);
    TotalIs(lines, end, IsBookingScoped, OfBookings, Gross, Amount);
    SpreadPerDay(g.netted.ota, g.availableDays, Total(lines, end, ToOtas, Amount));
    SpreadPerDay(g.netted.cleaning, g.availableDays, Total(lines, end, ToCleaners, Amount));
    SpreadPerDay(g.netted.laundry, g.availableDays, Total(lines, end, ToLaundries, Amount));
    SpreadPerDay(g.netted.bookingScope, g.availableDays, Total(lines, end, OfBookings, Amount));
  }

  lemma CountIs(lines: seq<PaymentLine>)
    ensures Sum(lines, One) == |lines| as real
  {
    SumConstant(lines, One, 1.0);
  }

  lemma AverageIs(lines: seq<PaymentLine>, average: real, count: real, total: real)
    requires average == Average(lines) && count == |lines| as real && total == Sum(lines, Gross)
    ensures AveragesTo(average, count, total)
  {
    if lines != [] {
      SpreadErrorReal(total, count, average);
    }
  }

  lemma BookingFromLines(lines: seq<PaymentLine>, g: Aggregation)
    requires lines != [] && AggregateCost(lines) == Some(g)
    ensures BookingExactly(g, lines)
  {
    var end := LatestEnd(lines);
    var oneOff := Filter(Matching(lines), IsOneTime);
    MatchingIsEnding(lines, end);
    forall line: PaymentLine ensures IsOneTime(line) <==> In(BookingBucket)(line) {
      BucketsAre(line);
    }
    TotalIs(lines, end, IsOneTime, In(BookingBucket), Gross, Amount);
    TotalIs(lines, end, IsOneTime, In(BookingBucket), One, One);
    CountIs(oneOff);
    AverageIs(oneOff, g.perBookingCost, Total(lines, end, In(BookingBucket), One),
              Total(lines, end, In(BookingBucket), Amount));
  }

  // ---------------------------------------------------------------- the first line of its kind

  /** The k-th line is the first of those kept. */
  ghost predicate IsFirst(lines: seq<PaymentLine>, keep: PaymentLine -> bool, k: int) {
    && 0 <= k < |lines| && keep(lines[k])
    && forall j :: 0 <= j < k ==> !keep(lines[j])
  }

  lemma {:induction false} FirstKept(lines: seq<PaymentLine>, keep: PaymentLine -> bool) returns (k: nat)
    requires Filter(lines, keep) != []
    ensures IsFirst(lines, keep, k) && Filter(lines, keep)[0] == lines[k]
  {
    var front := lines[..|lines| - 1];
    if Filter(front, keep) == [] {
      k := |lines| - 1;
      forall j | 0 <= j < k ensures !keep(lines[j]) {
        assert front[j] == lines[j] && front[j] in front;
      }
    } else {
      k := FirstKept(front, keep);
      forall j | 0 <= j < k ensures !keep(lines[j]) {
        assert front[j] == lines[j];
      }
    }
  }

  lemma {:induction false} FirstWithIs(lines: seq<PaymentLine>, concept: Concept, keep: PaymentLine -> bool)
    requires HasConcept(lines, concept) && forall line :: keep(line) <==> line.concept == concept
    ensures Filter(lines, keep) != [] && Filter(lines, keep)[0] == FirstWith(lines, concept)
  {
    var first, rest := lines[0], lines[1..];
    assert lines == [first] + rest;
    FilterAppend([first], rest, keep);
    assert [first][..0] == [];
    if first.concept != concept {
      var k :| 0 <= k < |lines| && lines[k].concept == concept;
      assert rest[k - 1] == lines[k];
      FirstWithIs(rest, concept, keep);
    }
  }

  function Of(bucket: Bucket, concept: Concept): PaymentLine -> bool {
    (line: PaymentLine) => BucketOf(line) == bucket && line.concept == concept
  }

  function InPeriodOf(end: Date, bucket: Bucket, concept: Concept): PaymentLine -> bool {
    (line: PaymentLine) => line.periodEnd == end && BucketOf(line) == bucket && line.concept == concept
  }

  /** The lines of a bucket and a concept, filtered step by step or at once. */
  lemma FilteredByConcept(lines: seq<PaymentLine>, end: Date, kind: PaymentLine -> bool, bucket: Bucket,
                          concept: Concept, same: PaymentLine -> bool)
    requires forall line :: kind(line) <==> In(bucket)(line)
    requires forall line :: same(line) <==> line.concept == concept
    ensures Filter(Filter(Filter(lines, Ending(end)), kind), same) == Filter(lines, InPeriodOf(end, bucket, concept))
  {
    FilterTwice(lines, Ending(end), kind, InPeriod(end, bucket));
    FilterTwice(lines, InPeriod(end, bucket), same, InPeriodOf(end, bucket, concept));
  }

  /** The first line of the period in this bucket and of this concept is the one that entries are read from. */
  lemma FirstOfConcept(lines: seq<PaymentLine>, end: Date, kind: PaymentLine -> bool, bucket: Bucket,
                       concept: Concept) returns (k: nat)
    requires forall line :: kind(line) <==> In(bucket)(line)
    requires HasConcept(Filter(Filter(lines, Ending(end)), kind), concept)
    ensures IsFirst(lines, InPeriodOf(end, bucket, concept), k)
    ensures FirstWith(Filter(Filter(lines, Ending(end)), kind), concept) == lines[k]
  {
    var same := (line: PaymentLine) => line.concept == concept;
    FilteredByConcept(lines, end, kind, bucket, concept, same);
    FirstWithIs(Filter(Filter(lines, Ending(end)), kind), concept, same);
    k := FirstKept(lines, InPeriodOf(end, bucket, concept));
  }

  // ---------------------------------------------------------------- entries by concept

  /** c defers this concept: what its deferred lines come to a month, with the behavior and the measure of the
      first of them. */
  ghost predicate DefersConcept(c: PendingCorrection, lines: seq<PaymentLine>, end: Date) {
    && IsRounded(c.monthlyEquivalent, Total(lines, end, Of(DeferredBucket, c.concept), LinePerMonth))
    && exists k :: IsFirst(lines, InPeriodOf(end, DeferredBucket, c.concept), k)
                   && c.behavior == lines[k].behavior && c.allocationMethod == lines[k].allocationMethod
  }

  /** p is this concept's percentage: rate and base of the first of its percentage lines, rate 0 if it has none. */
  ghost predicate IsPercentageOf(p: PercentageCost, lines: seq<PaymentLine>, end: Date) {
    exists k :: IsFirst(lines, InPeriodOf(end, PercentageBucket, p.concept), k)
                && p.revenueBase == lines[k].revenueBase
                && p.rate == (match lines[k].rate case Some(rate) => rate case None => 0.0)
  }

  /** One entry for each concept with a deferred line in the period, and no other. */
  ghost predicate PendingExactly(g: Aggregation, lines: seq<PaymentLine>) {
    && (forall j :: 0 <= j < |g.pending| ==> DefersConcept(g.pending[j], lines, g.periodEnd))
    && (forall i, j :: 0 <= i < j < |g.pending| ==> g.pending[i].concept != g.pending[j].concept)
    && (forall k :: 0 <= k < |lines| && lines[k].periodEnd == g.periodEnd && BucketOf(lines[k]) == DeferredBucket ==>
          exists j :: 0 <= j < |g.pending| && g.pending[j].concept == lines[k].concept)
  }

  /** One entry for each concept with a percentage line in the period, and no other. */
  ghost predicate PercentagesExactly(g: Aggregation, lines: seq<PaymentLine>) {
    && (forall j :: 0 <= j < |g.percentageCosts| ==> IsPercentageOf(g.percentageCosts[j], lines, g.periodEnd))
    && (forall i, j :: 0 <= i < j < |g.percentageCosts| ==>
        g.percentageCosts[i].concept != g.percentageCosts[j].concept)
    && (forall k :: 0 <= k < |lines| && lines[k].periodEnd == g.periodEnd && BucketOf(lines[k]) == PercentageBucket ==>
          exists j :: 0 <= j < |g.percentageCosts| && g.percentageCosts[j].concept == lines[k].concept)
  }

  lemma PendingIsDeferral(lines: seq<PaymentLine>, end: Date, concept: Concept)
    requires lines != [] && end == LatestEnd(lines)
    requires HasConcept(Filter(Matching(lines), IsDeferred), concept)
    ensures DefersConcept(PendingFor(Filter(Matching(lines), IsDeferred), concept), lines, end)
  {
    var deferred := Filter(Matching(lines), IsDeferred);
    MatchingIsEnding(lines, end);
    forall line: PaymentLine
      ensures IsDeferred(line) <==> In(DeferredBucket)(line)
      ensures MonthlyEquivalent(line) == LinePerMonth(line)
    {
      BucketsAre(line);
      MonthlyIsPerMonth(line);
    }
    var k := FirstOfConcept(lines, end, IsDeferred, DeferredBucket, concept);
    GroupTotalIs(lines, end, concept);
  }

  lemma GroupTotalIs(lines: seq<PaymentLine>, end: Date, concept: Concept)
    requires lines != [] && end == LatestEnd(lines)
    ensures GroupTotal(Filter(Matching(lines), IsDeferred), concept) ==
            Total(lines, end, Of(DeferredBucket, concept), LinePerMonth)
  {
    var same := (line: PaymentLine) => line.concept == concept;
    var deferred := Filter(Matching(lines), IsDeferred);
    MatchingIsEnding(lines, end);
    forall line: PaymentLine
      ensures IsDeferred(line) <==> In(DeferredBucket)(line)
      ensures MonthlyEquivalent(line) == LinePerMonth(line)
    {
      BucketsAre(line);
      MonthlyIsPerMonth(line);
    }
    FilteredByConcept(lines, end, IsDeferred, DeferredBucket, concept, same);
    var both := InPeriodOf(end, DeferredBucket, concept);
    SumAgrees(Filter(lines, both), MonthlyEquivalent, LinePerMonth);
    SumFiltered(lines, both, LinePerMonth, Where(end, Of(DeferredBucket, concept), LinePerMonth));
    GroupTotalBy(deferred, concept, same);
  }

  lemma GroupTotalBy(lines: seq<PaymentLine>, concept: Concept, same: PaymentLine -> bool)
    requires forall line :: same(line) <==> line.concept == concept
    ensures GroupTotal(lines, concept) == Sum(Filter(lines, same), MonthlyEquivalent)
  {
    SameFilter(lines, (line: PaymentLine) => line.concept == concept, same);
  }

  lemma PercentageIsEntry(lines: seq<PaymentLine>, end: Date, concept: Concept)
    requires lines != [] && end == LatestEnd(lines)
    requires HasConcept(Filter(Matching(lines), IsPercentage), concept)
    ensures IsPercentageOf(PercentageFor(Filter(Matching(lines), IsPercentage), concept), lines, end)
  {
    MatchingIsEnding(lines, end);
    forall line: PaymentLine ensures IsPercentage(line) <==> In(PercentageBucket)(line) {
      BucketsAre(line);
    }
    var k := FirstOfConcept(lines, end, IsPercentage, PercentageBucket, concept);
  }

  /** The concepts of the lines kept are exactly those with a line of that kind in the period. */
  lemma ConceptIsListed(lines: seq<PaymentLine>, end: Date, kind: PaymentLine -> bool, k: nat) returns (j: nat)
    requires k < |lines| && lines[k].periodEnd == end && kind(lines[k])
    ensures var concepts := ConceptsOf(Filter(Filter(lines, Ending(end)), kind));
            j < |concepts| && concepts[j] == lines[k].concept
  {
    var kept := Filter(Filter(lines, Ending(end)), kind);
    assert Ending(end)(lines[k]);
    assert lines[k] in Filter(lines, Ending(end)) && lines[k] in kept;
    j :| 0 <= j < |ConceptsOf(kept)| && ConceptsOf(kept)[j] == lines[k].concept;
  }

  lemma PendingFromLines(lines: seq<PaymentLine>, g: Aggregation)
    requires lines != [] && AggregateCost(lines) == Some(g)
    ensures PendingExactly(g, lines)
  {
    var end := LatestEnd(lines);
    var deferred := Filter(Matching(lines), IsDeferred);
    assert g.pending == PendingCorrections(deferred) && g.periodEnd == end;
    forall j | 0 <= j < |g.pending| ensures DefersConcept(g.pending[j], lines, end) {
      PendingIsDeferral(lines, end, ConceptsOf(deferred)[j]);
    }
    forall k | 0 <= k < |lines| && lines[k].periodEnd == end && BucketOf(lines[k]) == DeferredBucket
      ensures exists j :: 0 <= j < |g.pending| && g.pending[j].concept == lines[k].concept
    {
      MatchingIsEnding(lines, end);
      BucketsAre(lines[k]);
      var j := ConceptIsListed(lines, end, IsDeferred, k);
      assert g.pending[j].concept == lines[k].concept;
    }
  }

  lemma PercentagesFromLines(lines: seq<PaymentLine>, g: Aggregation)
    requires lines != [] && AggregateCost(lines) == Some(g)
    ensures PercentagesExactly(g, lines)
  {
    var end := LatestEnd(lines);
    var kept := Filter(Matching(lines), IsPercentage);
    assert g.percentageCosts == PercentageCosts(kept) && g.periodEnd == end;
    forall j | 0 <= j < |g.percentageCosts| ensures IsPercentageOf(g.percentageCosts[j], lines, end) {
      PercentageIsEntry(lines, end, ConceptsOf(kept)[j]);
    }
    forall k | 0 <= k < |lines| && lines[k].periodEnd == end && BucketOf(lines[k]) == PercentageBucket
      ensures exists j :: 0 <= j < |g.percentageCosts| && g.percentageCosts[j].concept == lines[k].concept
    {
      MatchingIsEnding(lines, end);
      BucketsAre(lines[k]);
      var j := ConceptIsListed(lines, end, IsPercentage, k);
      assert g.percentageCosts[j].concept == lines[k].concept;
    }
  }

  // ---------------------------------------------------------------- all of it

  /** The period is that of the first line among those that end last; its days, lines and total are counted
      over all of them. */
  ghost predicate PeriodExactly(g: Aggregation, lines: seq<PaymentLine>) {
    && IsLatestEnd(lines, g.periodEnd)
    && (exists k :: IsFirst(lines, Ending(g.periodEnd), k) && g.periodStart == lines[k].periodStart)
    && g.availableDays == g.periodEnd - g.periodStart + 1
    && g.linesCount as real == Total(lines, g.periodEnd, Any, One)
    && IsRounded(g.totalMonthlyCost, Total(lines, g.periodEnd, Any, Amount))
  }

  predicate IsRounded(shown: real, exact: real) {
    -0.005 <= shown - exact <= 0.005
  }

  lemma RoundedTotal(exact: real, shown: real)
    requires shown == Round2(exact)
    ensures IsRounded(shown, exact)
  {
  }

  lemma WholePeriod(lines: seq<PaymentLine>, end: Date, value: PaymentLine -> real)
    ensures Sum(Filter(lines, Ending(end)), value) == Total(lines, end, Any, value)
  {
    SumFiltered(lines, Ending(end), value, Where(end, Any, value));
  }

  lemma PeriodFields(lines: seq<PaymentLine>, g: Aggregation)
    requires lines != [] && AggregateCost(lines) == Some(g)
    ensures g.periodEnd == LatestEnd(lines) && Matching(lines) != []
    ensures g.periodStart == Matching(lines)[0].periodStart && g.availableDays == g.periodEnd - g.periodStart + 1
    ensures g.linesCount == |Matching(lines)| && g.totalMonthlyCost == Round2(Sum(Matching(lines), Gross))
  {
  }

  lemma LinesCounted(lines: seq<PaymentLine>, end: Date)
    requires lines != [] && end == LatestEnd(lines)
    ensures |Matching(lines)| as real == Total(lines, end, Any, One)
  {
    MatchingIsEnding(lines, end);
    WholePeriod(lines, end, One);
    CountIs(Matching(lines));
  }

  lemma GrossCounted(lines: seq<PaymentLine>, end: Date)
    requires lines != [] && end == LatestEnd(lines)
    ensures Sum(Matching(lines), Gross) == Total(lines, end, Any, Amount)
  {
    MatchingIsEnding(lines, end);
    WholePeriod(lines, end, Gross);
    SumAgrees(lines, Where(end, Any, Gross), Where(end, Any, Amount));
  }

  lemma PeriodFromLines(lines: seq<PaymentLine>, g: Aggregation)
    requires lines != [] && AggregateCost(lines) == Some(g)
    ensures PeriodExactly(g, lines)
  {
    PeriodFields(lines, g);
    MatchingIsEnding(lines, g.periodEnd);
    LinesCounted(lines, g.periodEnd);
    GrossCounted(lines, g.periodEnd);
    RoundedTotal(Sum(Matching(lines), Gross), g.totalMonthlyCost);
    var k := FirstKept(lines, Ending(g.periodEnd));
  }

  ghost predicate IsAggregateExactly(g: Aggregation, lines: seq<PaymentLine>) {
    && PeriodExactly(g, lines) && BucketsExactly(g, lines) && BookingExactly(g, lines)
    && NettedExactly(g, lines) && PendingExactly(g, lines) && PercentagesExactly(g, lines)
  }

  /** Every figure of the aggregate of any payment lines; there is none only of no lines. */
  lemma AggregateFromLines(lines: seq<PaymentLine>)
    ensures lines == [] <==> AggregateCost(lines).None?
    ensures lines != [] ==> IsAggregateExactly(AggregateCost(lines).value, lines)
  {
    if lines != [] {
      var g := AggregateCost(lines).value;
      PeriodFromLines(lines, g);
      BucketsFromLines(lines, g);
      BookingFromLines(lines, g);
      NettedFromLines(lines, g);
      PendingFromLines(lines, g);
      PercentagesFromLines(lines, g);
    }
  }

  // ---------------------------------------------------------------- as Stage A emits them

  /** The figures of an emitted aggregate that come from payment lines. */
  function FiguresOf(cost: CostAggregate): Aggregation
    requires cost.costLinesCount >= 0
  {
    Aggregation(cost.periodStart, cost.periodEnd, cost.totalMonthlyCost, cost.availableDays, cost.costLinesCount,
                cost.fixedCost, cost.variableCost, cost.perBookingCost, cost.netted, cost.pending,
                cost.percentageCosts)
  }

  /** The figures of the emitted aggregate are those of the lines in the state, read in some order. */
  ghost predicate EmitsFigures(cost: CostAggregate, lines: map<string, PaymentLine>, keys: seq<string>)
    requires ListsKeys(keys, lines)
  {
    cost.costLinesCount >= 0 && IsAggregateExactly(FiguresOf(cost), Values(keys, lines))
  }

  /** What Stage A emits for an apartment: the figures of its lines, its own attributes, and margin, discount
      and version of its strategy. */
  lemma EmittedExactly(cost: CostAggregate, a: ApartmentId, lines: map<string, PaymentLine>,
                       profile: Structural.Profile, strategy: Strategies.Strategy, now: Millis)
    requires CostEnrichmentStage.IsEnrichmentOf(cost, a, lines, profile, strategy, now)
    ensures exists keys :: ListsKeys(keys, lines) && EmitsFigures(cost, lines, keys)
    ensures cost.apartmentId == a && cost.updatedAt == now
    ensures cost.attributeFactor == Structural.AttributeFactor(profile)
    ensures cost.targetMargin == strategy.targetMargin && cost.discount == strategy.discount
    ensures cost.strategyVersion == strategy.version
  {
    var keys :| ListsKeys(keys, lines) && CostEnrichmentStage.EnrichedFrom(cost, a, keys, lines, profile, strategy,
                                                                           now);
    AggregateFromLines(Values(keys, lines));
    assert FiguresOf(cost) == AggregateCost(Values(keys, lines)).value;
    assert EmitsFigures(cost, lines, keys);
  }
}
