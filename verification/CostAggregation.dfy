/** Cost aggregation of one apartment's payment lines (cost_aggregation.py). */
module CostAggregation {
  import opened Wrappers
  import opened Rounding
  import opened Listings
  import opened PricingEngine
  import opened Models

  datatype PaymentLine = PaymentLine(
    eventId: string,
    apartmentId: ApartmentId,
    periodStart: Date,
    periodEnd: Date,
    amountGross: real,
    concept: Concept,
    scope: Scope,
    behavior: Behavior,
    calculationBase: CalculationBase,
    recurrence: Recurrence,
    revenueBase: Option<RevenueBase>,
    allocationMethod: AllocationMethod,
    rate: Option<real>)

  datatype Aggregation = Aggregation(
    periodStart: Date,
    periodEnd: Date,
    totalMonthlyCost: real,
    availableDays: int,
    linesCount: nat,
    fixedCost: real,
    variableCost: real,
    perBookingCost: real,
    netted: NettedCosts,
    pending: seq<PendingCorrection>,
    percentageCosts: seq<PercentageCost>)

  function MonthlyDivisor(recurrence: Recurrence): real {
    match recurrence
    case Quarterly => 3.0
    case Annual => 12.0
    case _ => 1.0
  }

  function MonthlyEquivalent(line: PaymentLine): real {
    line.amountGross / MonthlyDivisor(line.recurrence)
  }

  predicate IsPercentage(line: PaymentLine) {
    line.calculationBase.PctRevenue? || line.calculationBase.PctAdjustedRevenue?
  }

  predicate IsOneTime(line: PaymentLine) {
    !IsPercentage(line) && line.recurrence.OneOff?
  }

  predicate IsRecurring(line: PaymentLine) {
    !IsPercentage(line) && !line.recurrence.OneOff?
  }

  /** Its per-night share needs the occupancy that only the booking stage knows. */
  predicate IsDeferred(line: PaymentLine) {
    IsRecurring(line) && (line.allocationMethod.OccupiedNight? || line.allocationMethod.ByBooking?)
  }

  predicate IsFixedNow(line: PaymentLine) {
    IsRecurring(line) && !IsDeferred(line) && line.behavior.FixedCost?
  }

  predicate IsVariableNow(line: PaymentLine) {
    IsRecurring(line) && !IsDeferred(line) && !line.behavior.FixedCost?
  }

  function Gross(line: PaymentLine): real { line.amountGross }

  function LatestEnd(lines: seq<PaymentLine>): (end: Date)
    requires lines != []
    ensures exists k :: 0 <= k < |lines| && lines[k].periodEnd == end
    ensures forall k :: 0 <= k < |lines| ==> lines[k].periodEnd <= end
  {
    var last := lines[|lines| - 1].periodEnd;
    if |lines| == 1 then last
    else
      var front := LatestEnd(lines[..|lines| - 1]);
      if front >= last then front else last
  }

  function Matching(lines: seq<PaymentLine>): seq<PaymentLine>
    requires lines != []
  {
    var end := LatestEnd(lines);
    Filter(lines, (line: PaymentLine) => line.periodEnd == end)
  }

  function Share(total: real, parts: real): real
    requires parts > 0.0
  {
    Round2(total / parts)
  }

  function PerDay(total: real, days: int): real {
    if days > 0 then Share(total, days as real) else 0.0
  }

  function TotalOf(lines: seq<PaymentLine>, keep: PaymentLine -> bool, value: PaymentLine -> real): real {
    Sum(Filter(lines, keep), value)
  }

  // ---------------------------------------------------------------- one entry per concept

  predicate HasConcept(lines: seq<PaymentLine>, concept: Concept) {
    exists k :: 0 <= k < |lines| && lines[k].concept == concept
  }

  /** The concepts of the lines, each once, in order of first appearance. */
  function ConceptsOf(lines: seq<PaymentLine>): (concepts: seq<Concept>)
    ensures forall line :: line in lines ==> line.concept in concepts
    ensures forall k :: 0 <= k < |concepts| ==> HasConcept(lines, concepts[k])
    ensures Distinct(concepts)
  {
    if lines == [] then []
    else
      var front, last := lines[..|lines| - 1], lines[|lines| - 1];
      assert lines == front + [last];
      var known := ConceptsOf(front);
      if last.concept in known then known else known + [last.concept]
  }

  function FirstWith(lines: seq<PaymentLine>, concept: Concept): (line: PaymentLine)
    requires HasConcept(lines, concept)
    ensures line in lines && line.concept == concept
  {
    if lines[0].concept == concept then lines[0] else FirstWith(lines[1..], concept)
  }

  function PendingFor(deferred: seq<PaymentLine>, concept: Concept): PendingCorrection
    requires HasConcept(deferred, concept)
  {
    var first := FirstWith(deferred, concept);
    PendingCorrection(concept, first.behavior, first.allocationMethod, Round2(GroupTotal(deferred, concept)))
  }

  function GroupTotal(lines: seq<PaymentLine>, concept: Concept): real {
    TotalOf(lines, (line: PaymentLine) => line.concept == concept, MonthlyEquivalent)
  }

  function PendingCorrections(deferred: seq<PaymentLine>): (pending: seq<PendingCorrection>)
    ensures |pending| == |ConceptsOf(deferred)|
    ensures forall k :: 0 <= k < |pending| ==> pending[k] == PendingFor(deferred, ConceptsOf(deferred)[k])
  {
    var concepts := ConceptsOf(deferred);
    seq(|concepts|, k requires 0 <= k < |concepts| => PendingFor(deferred, concepts[k]))
  }

  function RateOfLine(line: PaymentLine): real {
    if line.rate.Some? then line.rate.value else 0.0
  }

  function PercentageFor(lines: seq<PaymentLine>, concept: Concept): PercentageCost
    requires HasConcept(lines, concept)
  {
    var first := FirstWith(lines, concept);
    PercentageCost(concept, RateOfLine(first), first.revenueBase)
  }

  function PercentageCosts(lines: seq<PaymentLine>): (pcs: seq<PercentageCost>)
    ensures |pcs| == |ConceptsOf(lines)|
    ensures forall k :: 0 <= k < |pcs| ==> pcs[k] == PercentageFor(lines, ConceptsOf(lines)[k])
  {
    var concepts := ConceptsOf(lines);
    seq(|concepts|, k requires 0 <= k < |concepts| => PercentageFor(lines, concepts[k]))
  }

  // ---------------------------------------------------------------- the aggregate

  function Average(lines: seq<PaymentLine>): real {
    if lines == [] then 0.0 else Round2(Sum(lines, Gross) / |lines| as real)
  }

  predicate IsOtaRelated(line: PaymentLine) {
    line.concept.OtaFee? || line.concept.ChannelManager?
  }

  predicate IsCleaning(line: PaymentLine) { line.concept.Cleaning? }

  predicate IsLaundry(line: PaymentLine) { line.concept.Laundry? }

  predicate IsBookingScoped(line: PaymentLine) { line.scope.BookingScope? }

  /** The per-night amounts that revenue bases net, from undivided gross amounts of all lines. */
  function NettedOf(matching: seq<PaymentLine>, days: int): NettedCosts {
    NettedCosts(
      PerDay(TotalOf(matching, IsOtaRelated, Gross), days),
      PerDay(TotalOf(matching, IsCleaning, Gross), days),
      PerDay(TotalOf(matching, IsLaundry, Gross), days),
      PerDay(TotalOf(matching, IsBookingScoped, Gross), days))
  }

  function AggregateMatching(matching: seq<PaymentLine>, periodEnd: Date): Aggregation
    requires matching != []
  {
    var start := matching[0].periodStart;
    var days := periodEnd - start + 1;
    Aggregation(
      start, periodEnd, Round2(Sum(matching, Gross)), days, |matching|,
      PerDay(TotalOf(matching, IsFixedNow, MonthlyEquivalent), days),
      PerDay(TotalOf(matching, IsVariableNow, MonthlyEquivalent), days),
      Average(Filter(matching, IsOneTime)),
      NettedOf(matching, days),
      PendingCorrections(Filter(matching, IsDeferred)),
      PercentageCosts(Filter(matching, IsPercentage)))
  }

  function AggregateCost(lines: seq<PaymentLine>): Option<Aggregation> {
    if lines == [] then None
    else
      assert exists line :: line in Matching(lines) by {
        var k :| 0 <= k < |lines| && lines[k].periodEnd == LatestEnd(lines);
        assert lines[k] in Matching(lines);
      }
      Some(AggregateMatching(Matching(lines), LatestEnd(lines)))
  }
}
