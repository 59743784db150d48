/** From the payment lines and the company's invoices to what Stage B reads: through aggregation, booking
    enrichment, correction and fan-out, no money appears or disappears beyond rounding. */
module EndToEndCost {
  import opened Listings
  import opened Models
  import opened CostAggregation
  import opened AllocationCorrection
  import opened CompanyCost

  /** An apartment: its payment lines, and their aggregate as the booking stage emits it. */
  datatype Flat = Flat(lines: seq<PaymentLine>, emitted: CostAggregate)

  predicate IsFlat(f: Flat) {
    f.lines != [] && f.emitted.availableDays > 0 && Carries(f.emitted, AggregateCost(f.lines).value)
  }

  function Corrected(f: Flat): CostAggregate {
    Correct(f.emitted)
  }

  /** What reaches Stage B as the cost of a night. */
  function CostRead(s: Broadcast, occurrences: seq<Occurrence>, f: Flat): real {
    var value := Enriched(s, Corrected(f), occurrences);
    value.fixedCost + value.variableCost
  }

  function Days(f: Flat): real {
    f.emitted.availableDays as real
  }

  /** A deferred concept is spread over its own divisor, not over the days of the period. */
  function OwnDivisor(value: CostAggregate): PendingCorrection -> real {
    (c: PendingCorrection) =>
      Portion(PerNightOf(value)(c), Denominator(value, c) as real)
          - Portion(PerNightOf(value)(c), value.availableDays as real)
  }

  /** The nightly cost that Stage B reads, over the days of the period, with every deferred concept counted
      over its own nights or bookings. */
  function ReadBack(s: Broadcast, occurrences: seq<Occurrence>): Flat -> real {
    (f: Flat) => Portion(CostRead(s, occurrences, f), Days(f)) + Sum(f.emitted.pending, OwnDivisor(f.emitted))
  }

  // ---------------------------------------------------------------- one apartment

  lemma CostReadIs(s: Broadcast, occurrences: seq<Occurrence>, f: Flat)
    requires IsFlat(f)
    ensures CostRead(s, occurrences, f) ==
            f.emitted.fixedCost + f.emitted.variableCost + Sum(f.emitted.pending, PerNightOf(f.emitted))
            + Sum(occurrences, NightShareOf(s, Corrected(f)))
  {
    CarriedAmountsAreCents(f.lines, f.emitted);
    CorrectionAddsPerNight(f.emitted);
    EnrichedAddsShares(s, Corrected(f), occurrences);
  }

  lemma PortionsAdd(a: real, b: real, c: real, d: real)
    ensures Portion(a + b + c, d) == Portion(a, d) + Portion(b, d) + Portion(c, d)
  {
  }

  lemma OneMorePortion(a: real, b: real, d: real)
    ensures Portion(a + b, d) == Portion(a, d) + Portion(b, d) && Portion(0.0, d) == 0.0
  {
  }

  lemma {:induction false} SumPortioned<T>(items: seq<T>, f: T -> real, d: real, portioned: T -> real)
    requires forall x :: x in items ==> portioned(x) == Portion(f(x), d)
    ensures Sum(items, portioned) == Portion(Sum(items, f), d)
  {
    if items == [] {
      OneMorePortion(0.0, 0.0, d);
    } else {
      var front, last := items[..|items| - 1], items[|items| - 1];
      assert items == front + [last];
      SumPortioned(front, f, d, portioned);
      OneMorePortion(Sum(front, f), f(last), d);
    }
  }

  function OverPeriod(value: CostAggregate): PendingCorrection -> real {
    (c: PendingCorrection) => Portion(PerNightOf(value)(c), value.availableDays as real)
  }

  lemma ScaledByDays(value: CostAggregate, days: real)
    requires days == value.availableDays as real
    ensures Portion(Sum(value.pending, PerNightOf(value)), days) == Sum(value.pending, OverPeriod(value))
  {
    SumPortioned(value.pending, PerNightOf(value), days, OverPeriod(value));
  }

  lemma SpreadBackIs(value: CostAggregate, c: PendingCorrection, share: real, own: real)
    requires share == PerNightOf(value)(c) && own == Denominator(value, c) as real
    ensures SpreadBack(value)(c) == Portion(share, own)
  {
  }

  lemma ConceptSplits(value: CostAggregate, c: PendingCorrection)
    ensures SpreadBack(value)(c) == OverPeriod(value)(c) + OwnDivisor(value)(c)
  {
    SpreadBackIs(value, c, PerNightOf(value)(c), Denominator(value, c) as real);
  }

  lemma ConceptsSplit(value: CostAggregate)
    ensures Sum(value.pending, SpreadBack(value)) ==
            Sum(value.pending, OverPeriod(value)) + Sum(value.pending, OwnDivisor(value))
  {
    forall c | c in value.pending ensures SpreadBack(value)(c) == OverPeriod(value)(c) + OwnDivisor(value)(c) {
      ConceptSplits(value, c);
    }
    SumAdds(value.pending, OverPeriod(value), OwnDivisor(value), SpreadBack(value));
  }

  lemma DeferredOverOwnDivisor(value: CostAggregate, days: real)
    requires days == value.availableDays as real
    ensures Portion(Sum(value.pending, PerNightOf(value)), days) + Sum(value.pending, OwnDivisor(value)) ==
            Sum(value.pending, SpreadBack(value))
  {
    ScaledByDays(value, days);
    ConceptsSplit(value);
  }

  lemma RecoveredIs(value: CostAggregate)
    ensures Recovered(value) == Portion(value.fixedCost + value.variableCost, value.availableDays as real)
                                + Sum(value.pending, SpreadBack(value))
  {
  }

  lemma ReadBackArithmetic(own: real, deferred: real, company: real, days: real, ownDivisor: real, spreadBack: real)
    requires Portion(deferred, days) + ownDivisor == spreadBack
    ensures Portion(own + deferred + company, days) + ownDivisor ==
            Portion(own, days) + spreadBack + Portion(company, days)
  {
    PortionsAdd(own, deferred, company, days);
  }

  /** The parts of what Stage B reads: the apartment's own, the corrected and the company's. */
  function OwnPart(f: Flat): real { f.emitted.fixedCost + f.emitted.variableCost }

  function DeferredPart(f: Flat): real { Sum(f.emitted.pending, PerNightOf(f.emitted)) }

  function CompanyPart(s: Broadcast, occurrences: seq<Occurrence>, f: Flat): real {
    Sum(occurrences, NightShareOf(s, Corrected(f)))
  }

  lemma ReadInParts(s: Broadcast, occurrences: seq<Occurrence>, f: Flat)
    requires IsFlat(f)
    ensures CostRead(s, occurrences, f) == OwnPart(f) + DeferredPart(f) + CompanyPart(s, occurrences, f)
  {
    CostReadIs(s, occurrences, f);
  }

  lemma CompanyPartOverPeriod(s: Broadcast, occurrences: seq<Occurrence>, f: Flat)
    ensures AddedOverPeriod(s, occurrences)(Corrected(f)) == Portion(CompanyPart(s, occurrences, f), Days(f))
  {
    assert Corrected(f).availableDays == f.emitted.availableDays;
  }

  lemma ReadBackIs(s: Broadcast, occurrences: seq<Occurrence>, f: Flat, read: real)
    requires read == CostRead(s, occurrences, f)
    ensures ReadBack(s, occurrences)(f) == Portion(read, Days(f)) + Sum(f.emitted.pending, OwnDivisor(f.emitted))
  {
  }

  lemma ReadBackInParts(s: Broadcast, occurrences: seq<Occurrence>, f: Flat, read: real)
    requires IsFlat(f) && read == OwnPart(f) + DeferredPart(f) + CompanyPart(s, occurrences, f)
    ensures ReadBack(s, occurrences)(f) == Portion(read, Days(f)) + Sum(f.emitted.pending, OwnDivisor(f.emitted))
  {
    ReadInParts(s, occurrences, f);
    ReadBackIs(s, occurrences, f, read);
  }

  lemma PartsRecovered(f: Flat, company: real, read: real)
    requires read == OwnPart(f) + DeferredPart(f) + company
    ensures Portion(read, Days(f)) + Sum(f.emitted.pending, OwnDivisor(f.emitted)) ==
            Recovered(f.emitted) + Portion(company, Days(f))
  {
    DeferredOverOwnDivisor(f.emitted, Days(f));
    RecoveredIs(f.emitted);
    ReadBackArithmetic(OwnPart(f), DeferredPart(f), company, Days(f),
                       Sum(f.emitted.pending, OwnDivisor(f.emitted)), Sum(f.emitted.pending, SpreadBack(f.emitted)));
  }

  /** What Stage B reads of an apartment is what its own lines left, and what the company added. */
  lemma ReadBackSplits(s: Broadcast, occurrences: seq<Occurrence>, f: Flat)
    requires IsFlat(f)
    ensures ReadBack(s, occurrences)(f) == Recovered(f.emitted) + AddedOverPeriod(s, occurrences)(Corrected(f))
  {
    var company := CompanyPart(s, occurrences, f);
    var read := OwnPart(f) + DeferredPart(f) + company;
    ReadBackInParts(s, occurrences, f, read);
    PartsRecovered(f, company, read);
    CompanyPartOverPeriod(s, occurrences, f);
  }

  // ---------------------------------------------------------------- all apartments

  function OwnRecovered(f: Flat): real { Recovered(f.emitted) }

  function OwnSlack(f: Flat): real { ConservationSlack(f.emitted) }

  /** The monthly equivalents of the apartment's recurring lines of the latest period. */
  function OwnMonthly(f: Flat): real {
    if f.lines == [] then 0.0 else TotalOf(Matching(f.lines), IsRecurring, LinePerMonth)
  }

  lemma OwnMonthlyIs(f: Flat)
    requires f.lines != []
    ensures OwnMonthly(f) == TotalOf(Matching(f.lines), IsRecurring, MonthlyEquivalent)
  {
    var recurring := Filter(Matching(f.lines), IsRecurring);
    forall line | line in recurring ensures LinePerMonth(line) == MonthlyEquivalent(line) {
      MonthlyIsPerMonth(line);
    }
    SumAgrees(recurring, LinePerMonth, MonthlyEquivalent);
  }

  function CompanyAdded(s: Broadcast, occurrences: seq<Occurrence>): Flat -> real {
    (f: Flat) => AddedOverPeriod(s, occurrences)(Corrected(f))
  }

  predicate AllFlats(flats: seq<Flat>) {
    forall f :: f in flats ==> IsFlat(f)
  }

  lemma OwnIsConserved(flats: seq<Flat>)
    requires AllFlats(flats)
    ensures -Sum(flats, OwnSlack) <= Sum(flats, OwnRecovered) - Sum(flats, OwnMonthly) <= Sum(flats, OwnSlack)
  {
    forall f | f in flats ensures -OwnSlack(f) <= OwnRecovered(f) - OwnMonthly(f) <= OwnSlack(f) {
      CostIsConserved(f.lines, f.emitted);
      OwnMonthlyIs(f);
    }
    SumWithin(flats, OwnRecovered, OwnMonthly, OwnSlack);
  }

  lemma ReadBackTotal(s: Broadcast, occurrences: seq<Occurrence>, flats: seq<Flat>)
    requires AllFlats(flats)
    ensures Sum(flats, ReadBack(s, occurrences)) ==
            Sum(flats, OwnRecovered) + Sum(Map(flats, Corrected), AddedOverPeriod(s, occurrences))
  {
    forall f | f in flats
      ensures ReadBack(s, occurrences)(f) == OwnRecovered(f) + CompanyAdded(s, occurrences)(f)
    {
      ReadBackSplits(s, occurrences, f);
    }
    SumAdds(flats, OwnRecovered, CompanyAdded(s, occurrences), ReadBack(s, occurrences));
    SumMapped(flats, Corrected, AddedOverPeriod(s, occurrences), CompanyAdded(s, occurrences));
  }

  lemma CorrectedDays(flats: seq<Flat>)
    requires AllFlats(flats)
    ensures forall v :: v in Map(flats, Corrected) ==> v.availableDays > 0
  {
    forall v | v in Map(flats, Corrected) ensures v.availableDays > 0 {
      var k :| 0 <= k < |flats| && Map(flats, Corrected)[k] == v;
      assert flats[k] in flats;
    }
  }

  /** Every euro arrives: what Stage B reads over all apartments and periods is the total of the monthly
      equivalents of their recurring lines and of the company's resolved invoices, to within the rounding
      of the shares and of the weights. */
  lemma EveryEuroArrives(s: Broadcast, occurrences: seq<Occurrence>, flats: seq<Flat>)
    requires flats != [] && AllFlats(flats)
    requires forall o :: o in occurrences && ChargePerMonth(s, o) != 0.0 ==> SplitEqually(s, o, Map(flats, Corrected))
    ensures var slack := Sum(flats, OwnSlack) + Sum(occurrences, SlackOf(s, Map(flats, Corrected)));
            Within(Sum(flats, ReadBack(s, occurrences)),
                   Sum(flats, OwnMonthly) + Sum(occurrences, ChargeOf(s)), slack)
  {
    ReadBackTotal(s, occurrences, flats);
    OwnIsConserved(flats);
    CorrectedDays(flats);
    FanOutConservesEverything(s, Map(flats, Corrected), occurrences);
  }
}
