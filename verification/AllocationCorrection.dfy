/** Stage A-correction (stage_allocation_correction.py): the deferred concepts get their real divisor,
    exactly once, and no money is lost on the way beyond rounding. */
module AllocationCorrection {
  import opened Rounding
  import opened Listings
  import opened PricingEngine
  import opened Models
  import opened CostAggregation
  import ProfitGuarantee

  // ---------------------------------------------------------------- the correction

  /** The nights or bookings a concept is spread over; the whole period when there are none. */
  function Denominator(value: CostAggregate, c: PendingCorrection): int {
    var own :=
      if c.allocationMethod.OccupiedNight? then value.occupiedNights
      else if c.allocationMethod.ByBooking? then value.bookingCount
      else 0;
    if own <= 0 then value.availableDays else own
  }

  function PerNight(value: CostAggregate, c: PendingCorrection): real {
    PerDay(c.monthlyEquivalent, Denominator(value, c))
  }

  function FixedShare(value: CostAggregate): PendingCorrection -> real {
    (c: PendingCorrection) => if c.behavior.FixedCost? then PerNight(value, c) else 0.0
  }

  function VariableShare(value: CostAggregate): PendingCorrection -> real {
    (c: PendingCorrection) => if c.behavior.FixedCost? then 0.0 else PerNight(value, c)
  }

  function Correct(value: CostAggregate): CostAggregate {
    if value.pending == [] then value
    else value.(
      fixedCost := Round2(value.fixedCost + Sum(value.pending, FixedShare(value))),
      variableCost := Round2(value.variableCost + Sum(value.pending, VariableShare(value))),
      pending := [])
  }

  method MapAggregate(value: CostAggregate) returns (corrected: CostAggregate)
    ensures corrected == Correct(value)
  {
    if value.pending == [] {
      return value;
    }
    var fixedAddition, variableAddition := 0.0, 0.0;
    for k := 0 to |value.pending|
      invariant fixedAddition == Sum(value.pending[..k], FixedShare(value))
      invariant variableAddition == Sum(value.pending[..k], VariableShare(value))
    {
      var correction := value.pending[k];
      assert value.pending[..k + 1][..k] == value.pending[..k];
      var perNight := PerNight(value, correction);
      if correction.behavior.FixedCost? {
        fixedAddition := fixedAddition + perNight;
      } else {
        variableAddition := variableAddition + perNight;
      }
    }
    assert value.pending[..|value.pending|] == value.pending;
    corrected := value.(
      fixedCost := Round2(value.fixedCost + fixedAddition),
      variableCost := Round2(value.variableCost + variableAddition),
      pending := []);
  }

  /** A corrected aggregate is never corrected again. */
  lemma CorrectedOnce(value: CostAggregate)
    ensures Correct(Correct(value)) == Correct(value) && Correct(value).pending == []
  {
  }

  // ---------------------------------------------------------------- what a correction adds

  function PerNightOf(value: CostAggregate): PendingCorrection -> real {
    (c: PendingCorrection) => PerNight(value, c)
  }

  lemma PerDayIsCents(total: real, days: int)
    ensures IsCents(PerDay(total, days))
  {
    if days > 0 {
      var parts := days as real;
      Round2IsCents(total / parts);
    } else {
      assert (0.0 * 100.0).Floor == 0;
    }
  }

  lemma ZeroIsCents()
    ensures IsCents(0.0)
  {
    assert (0.0 * 100.0).Floor == 0;
  }

  /** On whole-cent costs the correction adds exactly the per-night amounts: the final rounding of
      each bucket changes nothing. */
  lemma CorrectionAddsPerNight(value: CostAggregate)
    requires IsCents(value.fixedCost) && IsCents(value.variableCost)
    ensures Correct(value).fixedCost + Correct(value).variableCost ==
            value.fixedCost + value.variableCost + Sum(value.pending, PerNightOf(value))
    ensures IsCents(Correct(value).fixedCost) && IsCents(Correct(value).variableCost)
  {
    ZeroIsCents();
    forall c | c in value.pending
      ensures IsCents(FixedShare(value)(c)) && IsCents(VariableShare(value)(c))
      ensures PerNightOf(value)(c) == FixedShare(value)(c) + VariableShare(value)(c)
    {
      PerDayIsCents(c.monthlyEquivalent, Denominator(value, c));
    }
    ProfitGuarantee.SumOfCents(value.pending, FixedShare(value));
    ProfitGuarantee.SumOfCents(value.pending, VariableShare(value));
    SumAdds(value.pending, FixedShare(value), VariableShare(value), PerNightOf(value));
    CentsAdd(value.fixedCost, Sum(value.pending, FixedShare(value)));
    CentsAdd(value.variableCost, Sum(value.pending, VariableShare(value)));
    Round2OfCents(value.fixedCost + Sum(value.pending, FixedShare(value)));
    Round2OfCents(value.variableCost + Sum(value.pending, VariableShare(value)));
  }

  // ---------------------------------------------------------------- conservation

  /** What a recurring amount is a month: a year's in twelve parts, a quarter's in three. */
  function PerMonth(amount: real, recurrence: Recurrence): real {
    if recurrence == Annual then amount / 12.0 else if recurrence == Quarterly then amount / 3.0 else amount
  }

  function LinePerMonth(line: PaymentLine): real {
    PerMonth(line.amountGross, line.recurrence)
  }

  lemma MonthlyIsPerMonth(line: PaymentLine)
    ensures MonthlyEquivalent(line) == LinePerMonth(line)
  {
  }

  predicate Within(a: real, b: real, slack: real) {
    -slack <= a - b <= slack
  }

  lemma WithinAdds(a: real, b: real, slack: real, a': real, b': real, slack': real)
    requires Within(a, b, slack) && Within(a', b', slack')
    ensures Within(a + a', b + b', slack + slack')
  {
  }

  function Masked(line: PaymentLine, keep: bool): real {
    if keep then MonthlyEquivalent(line) else 0.0
  }

  /** Every recurring amount goes to exactly one of the fixed bucket, the variable bucket and the
      deferred concepts. */
  lemma RecurringSplits(matching: seq<PaymentLine>)
    ensures TotalOf(matching, IsRecurring, MonthlyEquivalent) ==
            TotalOf(matching, IsFixedNow, MonthlyEquivalent) + TotalOf(matching, IsVariableNow, MonthlyEquivalent)
            + TotalOf(matching, IsDeferred, MonthlyEquivalent)
  {
    var all := (line: PaymentLine) => Masked(line, IsRecurring(line));
    var f := (line: PaymentLine) => Masked(line, IsFixedNow(line));
    var v := (line: PaymentLine) => Masked(line, IsVariableNow(line));
    var d := (line: PaymentLine) => Masked(line, IsDeferred(line));
    var fv := (line: PaymentLine) => Masked(line, IsFixedNow(line) || IsVariableNow(line));
    SumFiltered(matching, IsRecurring, MonthlyEquivalent, all);
    SumFiltered(matching, IsFixedNow, MonthlyEquivalent, f);
    SumFiltered(matching, IsVariableNow, MonthlyEquivalent, v);
    SumFiltered(matching, IsDeferred, MonthlyEquivalent, d);
    SumAdds(matching, f, v, fv);
    SumAdds(matching, fv, d, all);
  }

  function GroupTotalOf(lines: seq<PaymentLine>): Concept -> real {
    (c: Concept) => GroupTotal(lines, c)
  }

  lemma GroupTotalGrows(front: seq<PaymentLine>, last: PaymentLine, c: Concept)
    ensures GroupTotal(front + [last], c) == GroupTotal(front, c) + Masked(last, last.concept == c)
  {
    var keep := (line: PaymentLine) => line.concept == c;
    var kept := Filter(front, keep);
    assert (front + [last])[..|front|] == front;
    if keep(last) {
      assert Filter(front + [last], keep) == kept + [last];
      assert (kept + [last])[..|kept|] == kept;
    } else {
      assert Filter(front + [last], keep) == kept;
    }
  }

  function OwnShare(line: PaymentLine): Concept -> real {
    (c: Concept) => Masked(line, line.concept == c)
  }

  lemma GroupsGrow(front: seq<PaymentLine>, last: PaymentLine, concepts: seq<Concept>)
    requires Distinct(concepts) && last.concept in concepts
    ensures Sum(concepts, GroupTotalOf(front + [last])) == Sum(concepts, GroupTotalOf(front)) + MonthlyEquivalent(last)
  {
    forall c | c in concepts ensures GroupTotalOf(front + [last])(c) == GroupTotalOf(front)(c) + OwnShare(last)(c) {
      GroupTotalGrows(front, last, c);
    }
    SumAdds(concepts, GroupTotalOf(front), OwnShare(last), GroupTotalOf(front + [last]));
    SumOnOne(concepts, last.concept, OwnShare(last));
  }

  /** Summing per concept and then over the concepts is summing the lines. */
  lemma {:induction false} GroupsAddUp(lines: seq<PaymentLine>, concepts: seq<Concept>)
    requires Distinct(concepts) && forall line :: line in lines ==> line.concept in concepts
    ensures Sum(concepts, GroupTotalOf(lines)) == Sum(lines, MonthlyEquivalent)
  {
    if lines == [] {
      SumZero(concepts, GroupTotalOf(lines));
    } else {
      var front, last := lines[..|lines| - 1], lines[|lines| - 1];
      assert lines == front + [last];
      GroupsAddUp(front, concepts);
      GroupsGrow(front, last, concepts);
    }
  }

  lemma SpreadErrorReal(total: real, d: real, share: real)
    requires d > 0.0 && share == Share(total, d)
    ensures WithinHalfCents(share * d, total, d)
  {
    var exact := total / d;
    var gap := share - exact;
    assert exact * d == total;
    ScaledGap(gap, d);
    assert gap * d == share * d - exact * d;
  }

  /** back differs from total by at most half a cent for each of `parts`. */
  predicate WithinHalfCents(back: real, total: real, parts: real) {
    -0.005 * parts <= back - total <= 0.005 * parts
  }

  /** Rounding a share to cents and multiplying back moves at most half a cent per unit. */
  lemma SpreadError(total: real, days: int, share: real)
    requires days > 0 && share == PerDay(total, days)
    ensures WithinHalfCents(share * days as real, total, days as real)
  {
    var d := days as real;
    SpreadErrorReal(total, d, share);
  }

  lemma ScaledGap(gap: real, d: real)
    requires -0.005 <= gap <= 0.005 && d > 0.0
    ensures -0.005 * d <= gap * d <= 0.005 * d
  {
    ProfitGuarantee.ProductNotNegative(gap + 0.005, d);
    ProfitGuarantee.ProductNotNegative(0.005 - gap, d);
    assert (gap + 0.005) * d == gap * d + 0.005 * d;
    assert (0.005 - gap) * d == 0.005 * d - gap * d;
  }

  function SpreadBack(value: CostAggregate): PendingCorrection -> real {
    (c: PendingCorrection) => PerNight(value, c) * Denominator(value, c) as real
  }

  function SpreadSlack(value: CostAggregate): PendingCorrection -> real {
    (c: PendingCorrection) => 0.005 * (Denominator(value, c) + 1) as real
  }

  function MonthlyOf(c: PendingCorrection): real { c.monthlyEquivalent }

  /** One deferred concept: its per-night amount times its divisor is its rounded monthly total. */
  lemma ConceptSpread(value: CostAggregate, c: PendingCorrection)
    requires value.availableDays > 0
    ensures Denominator(value, c) > 0
    ensures -0.005 * Denominator(value, c) as real <= SpreadBack(value)(c) - MonthlyOf(c)
            <= 0.005 * Denominator(value, c) as real
  {
    SpreadError(c.monthlyEquivalent, Denominator(value, c), PerNight(value, c));
  }

  /** The pending corrections of a period, spread and multiplied back, are its deferred lines. */
  lemma DeferredConserved(value: CostAggregate, deferred: seq<PaymentLine>)
    requires value.availableDays > 0 && value.pending == PendingCorrections(deferred)
    ensures Within(Sum(value.pending, SpreadBack(value)), Sum(deferred, MonthlyEquivalent),
                   Sum(value.pending, SpreadSlack(value)))
  {
    var concepts := ConceptsOf(deferred);
    var pendingFor := (c: Concept) => if HasConcept(deferred, c) then PendingFor(deferred, c)
                                      else PendingCorrection(c, FixedCost, Direct, 0.0);
    assert value.pending == Map(concepts, pendingFor);
    var back := (c: Concept) => SpreadBack(value)(pendingFor(c));
    var slack := (c: Concept) => SpreadSlack(value)(pendingFor(c));
    SumMapped(concepts, pendingFor, SpreadBack(value), back);
    SumMapped(concepts, pendingFor, SpreadSlack(value), slack);
    GroupsAddUp(deferred, concepts);
    forall c | c in concepts ensures -slack(c) <= back(c) - GroupTotalOf(deferred)(c) <= slack(c) {
      var k :| 0 <= k < |concepts| && concepts[k] == c;
      ConceptSpread(value, pendingFor(c));
    }
    SumWithin(concepts, back, GroupTotalOf(deferred), slack);
  }

  /** value carries the aggregation's amounts, not yet corrected. */
  predicate Carries(value: CostAggregate, a: Aggregation) {
    && value.fixedCost == a.fixedCost && value.variableCost == a.variableCost
    && value.availableDays == a.availableDays && value.pending == a.pending
  }

  /** The immediate buckets, multiplied back, are the immediate lines. */
  lemma BucketsConserved(fixed: real, variable: real, days: int, fixedCost: real, variableCost: real)
    requires days > 0 && fixedCost == PerDay(fixed, days) && variableCost == PerDay(variable, days)
    ensures Within((fixedCost + variableCost) * days as real, fixed + variable, 0.01 * days as real)
  {
    SpreadError(fixed, days, fixedCost);
    SpreadError(variable, days, variableCost);
    SumOfBuckets(fixedCost, variableCost, days as real);
  }

  /** What the buckets and the deferred concepts recover when they are multiplied back. */
  function Recovered(value: CostAggregate): real {
    (value.fixedCost + value.variableCost) * value.availableDays as real + Sum(value.pending, SpreadBack(value))
  }

  /** Half a cent per day and bucket, and half a cent per unit (plus one) of each concept's divisor. */
  function ConservationSlack(value: CostAggregate): real {
    0.01 * value.availableDays as real + Sum(value.pending, SpreadSlack(value))
  }

  /** The amounts of value are those of these lines. */
  ghost predicate Splits(value: CostAggregate, matching: seq<PaymentLine>) {
    && value.fixedCost == PerDay(TotalOf(matching, IsFixedNow, MonthlyEquivalent), value.availableDays)
    && value.variableCost == PerDay(TotalOf(matching, IsVariableNow, MonthlyEquivalent), value.availableDays)
    && value.pending == PendingCorrections(Filter(matching, IsDeferred))
  }

  lemma ConservedTotal(value: CostAggregate, immediate: real, deferred: real, total: real)
    requires Within((value.fixedCost + value.variableCost) * value.availableDays as real, immediate,
                    0.01 * value.availableDays as real)
    requires Within(Sum(value.pending, SpreadBack(value)), deferred, Sum(value.pending, SpreadSlack(value)))
    requires total == immediate + deferred
    ensures Within(Recovered(value), total, ConservationSlack(value))
  {
    WithinAdds((value.fixedCost + value.variableCost) * value.availableDays as real, immediate,
               0.01 * value.availableDays as real,
               Sum(value.pending, SpreadBack(value)), deferred, Sum(value.pending, SpreadSlack(value)));
  }

  lemma PartsAreConserved(matching: seq<PaymentLine>, value: CostAggregate)
    requires Within((value.fixedCost + value.variableCost) * value.availableDays as real,
                    TotalOf(matching, IsFixedNow, MonthlyEquivalent)
                        + TotalOf(matching, IsVariableNow, MonthlyEquivalent),
                    0.01 * value.availableDays as real)
    requires Within(Sum(value.pending, SpreadBack(value)), TotalOf(matching, IsDeferred, MonthlyEquivalent),
                    Sum(value.pending, SpreadSlack(value)))
    ensures -ConservationSlack(value) <= Recovered(value) - TotalOf(matching, IsRecurring, MonthlyEquivalent)
            <= ConservationSlack(value)
  {
    RecurringSplits(matching);
    ConservedTotal(value,
                   TotalOf(matching, IsFixedNow, MonthlyEquivalent)
                   + TotalOf(matching, IsVariableNow, MonthlyEquivalent),
                   TotalOf(matching, IsDeferred, MonthlyEquivalent), TotalOf(matching, IsRecurring, MonthlyEquivalent));
  }

  lemma BucketsGiven(matching: seq<PaymentLine>, value: CostAggregate)
    requires value.availableDays > 0 && value.pending == PendingCorrections(Filter(matching, IsDeferred))
    requires Within((value.fixedCost + value.variableCost) * value.availableDays as real,
                    TotalOf(matching, IsFixedNow, MonthlyEquivalent)
                        + TotalOf(matching, IsVariableNow, MonthlyEquivalent),
                    0.01 * value.availableDays as real)
    ensures -ConservationSlack(value) <= Recovered(value) - TotalOf(matching, IsRecurring, MonthlyEquivalent)
            <= ConservationSlack(value)
  {
    DeferredConserved(value, Filter(matching, IsDeferred));
    PartsAreConserved(matching, value);
  }

  lemma SplitIsConserved(matching: seq<PaymentLine>, value: CostAggregate)
    requires Splits(value, matching) && value.availableDays > 0
    ensures -ConservationSlack(value) <= Recovered(value) - TotalOf(matching, IsRecurring, MonthlyEquivalent)
            <= ConservationSlack(value)
  {
    BucketsConserved(TotalOf(matching, IsFixedNow, MonthlyEquivalent),
                     TotalOf(matching, IsVariableNow, MonthlyEquivalent),
                     value.availableDays, value.fixedCost, value.variableCost);
    BucketsGiven(matching, value);
  }

  lemma CarriedAmountsSplit(lines: seq<PaymentLine>, value: CostAggregate)
    requires lines != [] && Carries(value, AggregateCost(lines).value)
    ensures Splits(value, Matching(lines))
  {
  }

  /** Conservation: the immediate buckets times the days of the period plus every deferred concept's
      per-night amount times its own divisor is the total of the monthly equivalents of all recurring
      non-percentage lines of the latest period, within the conservation slack. */
  lemma CostIsConserved(lines: seq<PaymentLine>, value: CostAggregate)
    requires lines != [] && Carries(value, AggregateCost(lines).value) && value.availableDays > 0
    ensures -ConservationSlack(value) <= Recovered(value) - TotalOf(Matching(lines), IsRecurring, MonthlyEquivalent)
            <= ConservationSlack(value)
  {
    CarriedAmountsSplit(lines, value);
    SplitIsConserved(Matching(lines), value);
  }

  lemma CarriedAmountsAreCents(lines: seq<PaymentLine>, value: CostAggregate)
    requires lines != [] && Carries(value, AggregateCost(lines).value)
    ensures IsCents(value.fixedCost) && IsCents(value.variableCost)
  {
    var matching := Matching(lines);
    CarriedAmountsSplit(lines, value);
    PerDayIsCents(TotalOf(matching, IsFixedNow, MonthlyEquivalent), value.availableDays);
    PerDayIsCents(TotalOf(matching, IsVariableNow, MonthlyEquivalent), value.availableDays);
  }

  /** And correcting adds exactly those per-night amounts, all of them, to the two buckets. */
  lemma CorrectionAddsWhatWasDeferred(lines: seq<PaymentLine>, value: CostAggregate)
    requires lines != [] && Carries(value, AggregateCost(lines).value)
    ensures Correct(value).fixedCost + Correct(value).variableCost ==
            value.fixedCost + value.variableCost + Sum(value.pending, PerNightOf(value))
  {
    CarriedAmountsAreCents(lines, value);
    CorrectionAddsPerNight(value);
  }

  lemma SumOfBuckets(a: real, b: real, d: real)
    ensures (a + b) * d == a * d + b * d
  {
  }
}
