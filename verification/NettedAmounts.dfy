/** The amounts that revenue bases net against the costs they are said to be part of: the buckets count
    monthly equivalents of some lines, the netted totals are gross amounts of all lines. */
module NettedAmounts {
  import opened Rounding
  import opened Listings
  import opened Models
  import opened CostAggregation

  // ---------------------------------------------------------------- what the buckets count

  /** The part of the line that is inside the fixed or the variable bucket. */
  function Counted(line: PaymentLine): real {
    if IsFixedNow(line) || IsVariableNow(line) then MonthlyEquivalent(line) else 0.0
  }

  /** All of the line is inside a bucket: recurring, not a percentage, not deferred, not spread over
      several months. */
  predicate IsCountedInFull(line: PaymentLine) {
    IsRecurring(line) && !IsDeferred(line) && MonthlyDivisor(line.recurrence) == 1.0
  }

  lemma BucketsCount(matching: seq<PaymentLine>)
    ensures TotalOf(matching, IsFixedNow, MonthlyEquivalent) + TotalOf(matching, IsVariableNow, MonthlyEquivalent) ==
            Sum(matching, Counted)
  {
    var f := (line: PaymentLine) => if IsFixedNow(line) then MonthlyEquivalent(line) else 0.0;
    var v := (line: PaymentLine) => if IsVariableNow(line) then MonthlyEquivalent(line) else 0.0;
    SumFiltered(matching, IsFixedNow, MonthlyEquivalent, f);
    SumFiltered(matching, IsVariableNow, MonthlyEquivalent, v);
    SumAdds(matching, f, v, Counted);
  }

  lemma LineIsCounted(line: PaymentLine)
    requires line.amountGross >= 0.0
    ensures 0.0 <= Counted(line) <= Gross(line)
    ensures Counted(line) == Gross(line) <==> (line.amountGross > 0.0 ==> IsCountedInFull(line))
  {
  }

  // ---------------------------------------------------------------- netted and counted

  /** No payment line has a negative amount. */
  predicate NoNegativeAmount(lines: seq<PaymentLine>) {
    forall k :: 0 <= k < |lines| ==> lines[k].amountGross >= 0.0
  }

  predicate AllCountedInFull(lines: seq<PaymentLine>) {
    forall k :: 0 <= k < |lines| && lines[k].amountGross > 0.0 ==> IsCountedInFull(lines[k])
  }

  lemma {:induction false} GrossAgainstCounted(lines: seq<PaymentLine>)
    requires NoNegativeAmount(lines)
    ensures Sum(lines, Gross) >= Sum(lines, Counted)
    ensures Sum(lines, Gross) == Sum(lines, Counted) <==> AllCountedInFull(lines)
  {
    if lines != [] {
      var front, last := lines[..|lines| - 1], lines[|lines| - 1];
      GrossAgainstCounted(front);
      LineIsCounted(last);
      assert AllCountedInFull(lines) <==> AllCountedInFull(front) && (last.amountGross > 0.0 ==> IsCountedInFull(last));
    }
  }

  /** The lines of one netted total. */
  function Kept(matching: seq<PaymentLine>, keep: PaymentLine -> bool): (kept: seq<PaymentLine>)
    ensures NoNegativeAmount(matching) ==> NoNegativeAmount(kept)
  {
    assert forall k :: 0 <= k < |Filter(matching, keep)| ==> Filter(matching, keep)[k] in Filter(matching, keep);
    Filter(matching, keep)
  }

  /** The netted total is at least what the buckets count of the same lines, and it is counted in full
      exactly when every one of these lines with an amount is. */
  ghost predicate NettedAgainstCounted(matching: seq<PaymentLine>, keep: PaymentLine -> bool) {
    && TotalOf(matching, keep, Gross) >= TotalOf(matching, keep, Counted)
    && (TotalOf(matching, keep, Gross) == TotalOf(matching, keep, Counted) <==> AllCountedInFull(Kept(matching, keep)))
  }

  lemma NettedTotal(matching: seq<PaymentLine>, keep: PaymentLine -> bool)
    requires NoNegativeAmount(matching)
    ensures NettedAgainstCounted(matching, keep)
  {
    GrossAgainstCounted(Kept(matching, keep));
  }

  /** For each of the four netted totals of any period: it is never less than its part of the buckets,
      and "already fully counted" inside them if and only if every line with an amount that it sums is
      recurring, not a percentage, not deferred and not spread over several months. */
  lemma NettingIsCountedExactly(matching: seq<PaymentLine>)
    requires NoNegativeAmount(matching)
    ensures NettedAgainstCounted(matching, IsOtaRelated) && NettedAgainstCounted(matching, IsCleaning)
    ensures NettedAgainstCounted(matching, IsLaundry) && NettedAgainstCounted(matching, IsBookingScoped)
    ensures TotalOf(matching, IsFixedNow, MonthlyEquivalent) + TotalOf(matching, IsVariableNow, MonthlyEquivalent) ==
            Sum(matching, Counted)
  {
    NettedTotal(matching, IsOtaRelated);
    NettedTotal(matching, IsCleaning);
    NettedTotal(matching, IsLaundry);
    NettedTotal(matching, IsBookingScoped);
    BucketsCount(matching);
  }

  lemma PerDayMonotone(total: real, total': real, days: int)
    requires total <= total'
    ensures PerDay(total, days) <= PerDay(total', days)
  {
    if days > 0 {
      var d := days as real;
      assert total' / d - total / d == (total' - total) / d;
      Round2Monotone(total / d, total' / d);
    }
  }

  /** Per night, as the revenue bases use them, after rounding: no netted amount is below the share of
      its lines in the costs of the night, and each is that share when its lines are counted in full. */
  lemma NettedPerNight(matching: seq<PaymentLine>, days: int)
    requires NoNegativeAmount(matching)
    ensures var netted := NettedOf(matching, days);
            && netted.ota >= PerDay(TotalOf(matching, IsOtaRelated, Counted), days)
            && netted.cleaning >= PerDay(TotalOf(matching, IsCleaning, Counted), days)
            && netted.laundry >= PerDay(TotalOf(matching, IsLaundry, Counted), days)
            && netted.bookingScope >= PerDay(TotalOf(matching, IsBookingScoped, Counted), days)
  {
    NettingIsCountedExactly(matching);
    PerDayMonotone(TotalOf(matching, IsOtaRelated, Counted), TotalOf(matching, IsOtaRelated, Gross), days);
    PerDayMonotone(TotalOf(matching, IsCleaning, Counted), TotalOf(matching, IsCleaning, Gross), days);
    PerDayMonotone(TotalOf(matching, IsLaundry, Counted), TotalOf(matching, IsLaundry, Gross), days);
    PerDayMonotone(TotalOf(matching, IsBookingScoped, Counted), TotalOf(matching, IsBookingScoped, Gross), days);
  }

  // ---------------------------------------------------------------- one line of each kind that fails

  lemma SumOfOne(line: PaymentLine, keep: PaymentLine -> bool, value: PaymentLine -> real)
    ensures TotalOf([line], keep, value) == if keep(line) then value(line) else 0.0
  {
    var one := [line];
    assert one[..|one| - 1] == [];
    assert Filter(one[..|one| - 1], keep) == [];
    if keep(line) {
      assert Filter(one, keep) == one;
      assert Sum(one, value) == Sum(one[..|one| - 1], value) + value(line);
    } else {
      assert Filter(one, keep) == [];
    }
  }

  lemma SpreadExactly(total: real, c: real, days: int)
    requires days > 0 && IsCents(c) && total == c * days as real
    ensures PerDay(total, days) == c
  {
    assert c * days as real / days as real == c;
    Round2OfCents(c);
  }

  lemma ZeroPerDay(days: int)
    ensures PerDay(0.0, days) == 0.0
  {
    NearestOfInt(0);
    assert days > 0 ==> 0.0 / days as real == 0.0;
  }

  /** A period of one line that costs this much a night gross. */
  predicate IsOneLine(line: PaymentLine, end: Date, gross: real) {
    && line.periodStart <= end && IsCents(gross) && gross > 0.0
    && line.amountGross == gross * (end - line.periodStart + 1) as real
  }

  lemma NettingOfOne(line: PaymentLine, end: Date, gross: real)
    requires IsOneLine(line, end, gross)
    ensures line.concept.OtaFee? ==> AggregateMatching([line], end).netted.ota == gross
    ensures line.scope.BookingScope? ==> AggregateMatching([line], end).netted.bookingScope == gross
  {
    var days := end - line.periodStart + 1;
    SumOfOne(line, IsOtaRelated, Gross);
    SumOfOne(line, IsBookingScoped, Gross);
    SpreadExactly(line.amountGross, gross, days);
    var one := [line];
    assert one[0] == line;
    assert AggregateMatching(one, end).netted == NettedOf(one, days);
  }

  lemma BucketsOfOne(line: PaymentLine, end: Date)
    requires line.periodStart <= end
    ensures var a := AggregateMatching([line], end);
            var night := PerDay(MonthlyEquivalent(line), end - line.periodStart + 1);
            && a.fixedCost == (if IsFixedNow(line) then night else 0.0)
            && a.variableCost == (if IsVariableNow(line) then night else 0.0)
  {
    SumOfOne(line, IsFixedNow, MonthlyEquivalent);
    SumOfOne(line, IsVariableNow, MonthlyEquivalent);
    ZeroPerDay(end - line.periodStart + 1);
    var one := [line];
    assert one[0] == line;
  }

  lemma PerBookingOfOne(line: PaymentLine, end: Date)
    ensures AggregateMatching([line], end).perBookingCost == if IsOneTime(line) then Round2(line.amountGross) else 0.0
  {
    var one := [line];
    assert one[..|one| - 1] == [];
    assert Filter(one[..|one| - 1], IsOneTime) == [];
    if IsOneTime(line) {
      assert Filter(one, IsOneTime) == one;
      assert Sum(one, Gross) == Sum(one[..|one| - 1], Gross) + line.amountGross;
    } else {
      assert Filter(one, IsOneTime) == [];
    }
  }

  /** A percentage line, the shape of the repository's own ota_fee: netted, and in neither bucket. */
  lemma PercentageFeeIsNotCounted(line: PaymentLine, end: Date, gross: real)
    requires IsOneLine(line, end, gross) && line.concept.OtaFee? && line.scope.BookingScope?
    requires line.calculationBase.PctAdjustedRevenue?
    ensures var a := AggregateMatching([line], end);
            a.fixedCost == 0.0 && a.variableCost == 0.0 && a.netted.ota == gross && a.netted.bookingScope == gross
  {
    BucketsOfOne(line, end);
    NettingOfOne(line, end, gross);
  }

  /** A one-off line: netted, and in neither bucket; it is the cost of one booking. */
  lemma OneOffFeeIsNotCounted(line: PaymentLine, end: Date, gross: real)
    requires IsOneLine(line, end, gross) && line.concept.OtaFee?
    requires line.calculationBase.FixedAmount? && line.recurrence.OneOff?
    ensures var a := AggregateMatching([line], end);
            && a.fixedCost == 0.0 && a.variableCost == 0.0 && a.netted.ota == gross
            && a.perBookingCost == Round2(line.amountGross)
  {
    BucketsOfOne(line, end);
    NettingOfOne(line, end, gross);
    PerBookingOfOne(line, end);
  }

  /** A line allocated by booking is deferred: netted at once, in neither bucket until it is corrected by
      another divisor, and not part of the cost of one booking. */
  lemma DeferredFeeIsNotCounted(line: PaymentLine, end: Date, gross: real)
    requires IsOneLine(line, end, gross) && line.concept.OtaFee?
    requires line.calculationBase.FixedAmount? && line.recurrence.Monthly? && line.allocationMethod.ByBooking?
    ensures var a := AggregateMatching([line], end);
            && a.fixedCost == 0.0 && a.variableCost == 0.0 && a.netted.ota == gross
            && a.perBookingCost == 0.0
  {
    BucketsOfOne(line, end);
    NettingOfOne(line, end, gross);
    PerBookingOfOne(line, end);
  }

  predicate IsPeriodicFee(line: PaymentLine) {
    && line.concept.OtaFee? && line.calculationBase.FixedAmount? && line.behavior.FixedCost?
    && line.allocationMethod.Direct? && (line.recurrence.Quarterly? || line.recurrence.Annual?)
  }

  function Months(line: PaymentLine): int {
    if line.recurrence.Annual? then 12 else 3
  }

  function TimesMonths(line: PaymentLine, c: real): real {
    Months(line) as real * c
  }

  lemma MonthsOfCents(line: PaymentLine, c: real)
    requires IsCents(c)
    ensures IsCents(TimesMonths(line, c))
  {
    var k := Months(line) * (c * 100.0).Floor;
    assert TimesMonths(line, c) * 100.0 == k as real;
  }

  lemma OneMonth(line: PaymentLine, c: real, days: real)
    requires IsPeriodicFee(line) && line.amountGross == TimesMonths(line, c) * days
    ensures MonthlyEquivalent(line) == c * days
  {
  }

  /** A fee of several months that costs c a night. */
  predicate CostsPerNight(line: PaymentLine, end: Date, c: real) {
    && IsPeriodicFee(line) && IsCents(c) && c > 0.0 && line.periodStart <= end
    && line.amountGross == TimesMonths(line, c) * (end - line.periodStart + 1) as real
  }

  lemma PeriodicFeeNetted(line: PaymentLine, end: Date, c: real)
    requires CostsPerNight(line, end, c)
    ensures AggregateMatching([line], end).netted.ota == TimesMonths(line, c)
  {
    MonthsOfCents(line, c);
    assert IsOneLine(line, end, TimesMonths(line, c));
    NettingOfOne(line, end, TimesMonths(line, c));
  }

  lemma PeriodicFeeCounted(line: PaymentLine, end: Date, c: real)
    requires CostsPerNight(line, end, c)
    ensures AggregateMatching([line], end).fixedCost == c && AggregateMatching([line], end).variableCost == 0.0
  {
    var days := end - line.periodStart + 1;
    OneMonth(line, c, days as real);
    SpreadExactly(MonthlyEquivalent(line), c, days);
    BucketsOfOne(line, end);
  }

  /** A quarterly or annual line: a fee that costs c a night is netted three or twelve times over. */
  lemma PeriodicFeeIsNettedInFull(line: PaymentLine, end: Date, c: real)
    requires CostsPerNight(line, end, c)
    ensures var a := AggregateMatching([line], end);
            a.fixedCost == c && a.variableCost == 0.0 && a.netted.ota == TimesMonths(line, c)
  {
    PeriodicFeeNetted(line, end, c);
    PeriodicFeeCounted(line, end, c);
  }
}
