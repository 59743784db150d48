/** Stage A4 (stage_company_cost_enrichment.py): company-wide invoices fanned out to the apartments by
    weight, and the equal weights the master data fills in (seed.py). */
module CompanyCost {
  import opened Wrappers
  import opened Rounding
  import opened Listings
  import opened Models
  import opened CostAggregation
  import AllocationCorrection
  import ProfitGuarantee

  type DefinitionId = string
  type Weights = map<ApartmentId, real>

  datatype CostDefinition = CostDefinition(scope: Scope, behavior: Behavior, recurrence: Recurrence)
  datatype Occurrence = Occurrence(occurrenceId: string, definitionId: DefinitionId, amountGross: real)

  /** The three broadcast states; an allocation rule without weights holds None. */
  datatype Broadcast = Broadcast(
    definitions: map<DefinitionId, CostDefinition>,
    allocations: map<DefinitionId, Option<Weights>>,
    occurrences: map<string, Occurrence>)

  // ---------------------------------------------------------------- one apartment

  /** The occurrence has a company-scoped definition and a weighting; others are skipped. */
  predicate Resolves(s: Broadcast, o: Occurrence) {
    && o.definitionId in s.definitions && o.definitionId in s.allocations
    && s.definitions[o.definitionId].scope.CompanyScope?
    && s.allocations[o.definitionId].Some?
  }

  function MonthlyAmount(s: Broadcast, o: Occurrence): real {
    if Resolves(s, o) then o.amountGross / MonthlyDivisor(s.definitions[o.definitionId].recurrence) else 0.0
  }

  /** The apartment's weight, 0 where it has none. */
  function WeightOf(s: Broadcast, o: Occurrence, a: ApartmentId): real {
    if Resolves(s, o) && a in s.allocations[o.definitionId].value then s.allocations[o.definitionId].value[a] else 0.0
  }

  function Portion(amount: real, weight: real): real {
    amount * weight
  }

  /** What one night of the apartment bears of the occurrence. */
  function NightShare(s: Broadcast, value: CostAggregate, o: Occurrence): real {
    var weight := WeightOf(s, o, value.apartmentId);
    if weight <= 0.0 then 0.0 else PerDay(Portion(MonthlyAmount(s, o), weight), value.availableDays)
  }

  predicate IsFixed(s: Broadcast, o: Occurrence) {
    Resolves(s, o) && s.definitions[o.definitionId].behavior.FixedCost?
  }

  function NightShareOf(s: Broadcast, value: CostAggregate): Occurrence -> real {
    (o: Occurrence) => NightShare(s, value, o)
  }

  function FixedPart(s: Broadcast, value: CostAggregate): Occurrence -> real {
    (o: Occurrence) => if IsFixed(s, o) then NightShare(s, value, o) else 0.0
  }

  function VariablePart(s: Broadcast, value: CostAggregate): Occurrence -> real {
    (o: Occurrence) => if IsFixed(s, o) then 0.0 else NightShare(s, value, o)
  }

  /** The aggregate with its shares added; untouched, not even rounded, when both additions are 0. */
  function Added(value: CostAggregate, fixedAddition: real, variableAddition: real): CostAggregate {
    if fixedAddition == 0.0 && variableAddition == 0.0 then value
    else value.(fixedCost := Round2(value.fixedCost + fixedAddition),
                variableCost := Round2(value.variableCost + variableAddition))
  }

  function Enriched(s: Broadcast, value: CostAggregate, occurrences: seq<Occurrence>): CostAggregate {
    Added(value, Sum(occurrences, FixedPart(s, value)), Sum(occurrences, VariablePart(s, value)))
  }

  lemma EnrichedIsOrderFree(s: Broadcast, value: CostAggregate, keys: seq<string>, keys': seq<string>)
    requires ListsKeys(keys, s.occurrences) && ListsKeys(keys', s.occurrences)
    ensures Enriched(s, value, Values(keys, s.occurrences)) == Enriched(s, value, Values(keys', s.occurrences))
  {
    ValuesPermute(keys, keys', s.occurrences, Occurrence("", "", 0.0));
    SumPermuted(Values(keys, s.occurrences), Values(keys', s.occurrences), FixedPart(s, value));
    SumPermuted(Values(keys, s.occurrences), Values(keys', s.occurrences), VariablePart(s, value));
  }

  class CompanyCostEnrichmentFunction {
    var definitions: map<DefinitionId, CostDefinition>
    var allocations: map<DefinitionId, Option<Weights>>
    var occurrences: map<string, Occurrence>

    function State(): Broadcast
      reads this
    {
      Broadcast(definitions, allocations, occurrences)
    }

    constructor ()
      ensures State() == Broadcast(map[], map[], map[])
    {
      definitions, allocations, occurrences := map[], map[], map[];
    }

    /** One occurrence's share for the night, None when it is skipped. */
    method ShareNext(value: CostAggregate, occurrence: Occurrence) returns (share: Option<real>)
      ensures NightShare(State(), value, occurrence) == if share.Some? then share.value else 0.0
      ensures share.Some? ==> Resolves(State(), occurrence)
    {
      if occurrence.definitionId !in definitions || occurrence.definitionId !in allocations {
        return None;
      }
      var definition, allocation := definitions[occurrence.definitionId], allocations[occurrence.definitionId];
      if !definition.scope.CompanyScope? || allocation.None? {
        return None;
      }
      var weight := if value.apartmentId in allocation.value then allocation.value[value.apartmentId] else 0.0;
      if weight <= 0.0 {
        return None;
      }
      var monthly := occurrence.amountGross / MonthlyDivisor(definition.recurrence);
      assert Resolves(State(), occurrence) && monthly == MonthlyAmount(State(), occurrence);
      share := Some(PerDay(Portion(monthly, weight), value.availableDays));
    }

    /** Adds the apartment's share of every occurrence, whatever order they are iterated in. */
    method ProcessElement(value: CostAggregate) returns (emitted: CostAggregate)
      ensures forall keys :: ListsKeys(keys, occurrences) ==>
              emitted == Enriched(State(), value, Values(keys, occurrences))
    {
      var order := IterationOrder(occurrences);
      var rows := Values(order, occurrences);
      var fixedAddition, variableAddition := 0.0, 0.0;
      for k := 0 to |rows|
        invariant fixedAddition == Sum(rows[..k], FixedPart(State(), value))
        invariant variableAddition == Sum(rows[..k], VariablePart(State(), value))
      {
        var occurrence := rows[k];
        assert rows[..k + 1][..k] == rows[..k];
        var share := ShareNext(value, occurrence);
        if share.Some? {
          if definitions[occurrence.definitionId].behavior.FixedCost? {
            fixedAddition := fixedAddition + share.value;
          } else {
            variableAddition := variableAddition + share.value;
          }
        }
      }
      assert rows[..|rows|] == rows;
      emitted := if fixedAddition == 0.0 && variableAddition == 0.0 then value
                 else value.(fixedCost := Round2(value.fixedCost + fixedAddition),
                             variableCost := Round2(value.variableCost + variableAddition));
      forall keys | ListsKeys(keys, occurrences)
        ensures emitted == Enriched(State(), value, Values(keys, occurrences))
      {
        EnrichedIsOrderFree(State(), value, order, keys);
      }
    }

    method ProcessDefinition(id: DefinitionId, definition: CostDefinition)
      modifies `definitions
      ensures definitions == old(definitions)[id := definition]
    {
      definitions := definitions[id := definition];
    }

    method ProcessAllocation(id: DefinitionId, weights: Option<Weights>)
      modifies `allocations
      ensures allocations == old(allocations)[id := weights]
    {
      allocations := allocations[id := weights];
    }

    method ProcessOccurrence(occurrence: Occurrence)
      modifies `occurrences
      ensures occurrences == old(occurrences)[occurrence.occurrenceId := occurrence]
    {
      occurrences := occurrences[occurrence.occurrenceId := occurrence];
    }
  }

  // ---------------------------------------------------------------- the weights

  function EqualWeight(n: nat): real
    requires n > 0
  {
    Round6(1.0 / n as real)
  }

  /** An equal split, rounded to six digits. */
  function EqualWeights(apartments: seq<ApartmentId>): Weights {
    map a | a in apartments :: EqualWeight(|apartments|)
  }

  /** The cost_allocation_rules table. */
  class AllocationRules {
    var rules: map<DefinitionId, Option<Weights>>

    constructor (rules: map<DefinitionId, Option<Weights>>)
      ensures this.rules == rules
    {
      this.rules := rules;
    }

    /** Fills a rule's weights only where they are still missing. */
    method EnsureWeightedAllocationConfig(id: DefinitionId, apartments: seq<ApartmentId>)
      modifies this
      ensures rules == if id in old(rules) && old(rules)[id].None?
                       then old(rules)[id := Some(EqualWeights(apartments))] else old(rules)
    {
      var weights := EqualWeights(apartments);
      if id in rules && rules[id].None? {
        rules := rules[id := Some(weights)];
      }
    }
  }

  // ---------------------------------------------------------------- conservation

  /** What an invoice charges a month, from the rows delivered: a company definition that is known, with
      weights that are known, and the definition's recurrence; others are skipped. */
  function ChargePerMonth(s: Broadcast, o: Occurrence): real {
    var definition, rule := Get(s.definitions, o.definitionId), Get(s.allocations, o.definitionId);
    if definition.None? || definition.value.scope != CompanyScope || rule.None? || rule.value.None? then 0.0
    else AllocationCorrection.PerMonth(o.amountGross, definition.value.recurrence)
  }

  /** The weight the rule gives the apartment, none where it is not listed. */
  function WeightFor(s: Broadcast, o: Occurrence, a: ApartmentId): real {
    var rule := Get(s.allocations, o.definitionId);
    if rule.None? || rule.value.None? then 0.0
    else
      var weight := Get(rule.value.value, a);
      if weight.None? then 0.0 else weight.value
  }

  /** What the apartment is due to add over its whole period. */
  function Due(s: Broadcast, o: Occurrence, a: ApartmentId): real {
    Portion(ChargePerMonth(s, o), WeightFor(s, o, a))
  }

  lemma ChargeIsMonthly(s: Broadcast, o: Occurrence, a: ApartmentId)
    ensures ChargePerMonth(s, o) == MonthlyAmount(s, o)
    ensures Resolves(s, o) ==> WeightFor(s, o, a) == WeightOf(s, o, a)
    ensures !Resolves(s, o) ==> ChargePerMonth(s, o) == 0.0 && WeightOf(s, o, a) == 0.0
  {
  }

  lemma NothingPerDay(days: int, weight: real)
    ensures PerDay(Portion(0.0, weight), days) == 0.0
  {
    NearestOfInt(0);
    if days > 0 {
      var parts := days as real;
      assert 0.0 / parts == 0.0;
    }
  }

  /** The share of a night, over the days of the period, is what the apartment is due, to half a cent a day;
      there is none without a positive weight, or for an invoice that is skipped. */
  lemma NightShareExactly(s: Broadcast, v: CostAggregate, o: Occurrence, due: real)
    requires due == Due(s, o, v.apartmentId)
    ensures WeightFor(s, o, v.apartmentId) > 0.0 && v.availableDays > 0 ==>
              AllocationCorrection.WithinHalfCents(NightShare(s, v, o) * v.availableDays as real, due,
                                                   v.availableDays as real)
    ensures WeightFor(s, o, v.apartmentId) <= 0.0 || v.availableDays <= 0 || ChargePerMonth(s, o) == 0.0 ==>
              NightShare(s, v, o) == 0.0
  {
    ChargeIsMonthly(s, o, v.apartmentId);
    NothingPerDay(v.availableDays, WeightOf(s, o, v.apartmentId));
    if Resolves(s, o) && WeightOf(s, o, v.apartmentId) > 0.0 {
      ShareIs(s, v, o, due);
      if v.availableDays > 0 {
        AllocationCorrection.SpreadError(due, v.availableDays, NightShare(s, v, o));
      }
    } else if !Resolves(s, o) && v.availableDays > 0 {
      NothingDue(s, o, v.apartmentId);
      ProfitGuarantee.ProductNotNegative(0.005, v.availableDays as real);
    }
  }

  lemma ShareIs(s: Broadcast, v: CostAggregate, o: Occurrence, due: real)
    requires due == Due(s, o, v.apartmentId) && Resolves(s, o) && WeightOf(s, o, v.apartmentId) > 0.0
    ensures NightShare(s, v, o) == PerDay(due, v.availableDays)
  {
    ChargeIsMonthly(s, o, v.apartmentId);
  }

  lemma NothingDue(s: Broadcast, o: Occurrence, a: ApartmentId)
    requires !Resolves(s, o)
    ensures Due(s, o, a) == 0.0
  {
    ChargeIsMonthly(s, o, a);
  }

  /** What the apartment adds over its whole period for one occurrence. */
  function PeriodShare(s: Broadcast, o: Occurrence): CostAggregate -> real {
    (v: CostAggregate) => NightShare(s, v, o) * v.availableDays as real
  }

  function Allotted(s: Broadcast, o: Occurrence): CostAggregate -> real {
    (v: CostAggregate) => Due(s, o, v.apartmentId)
  }

  function HalfCents(v: CostAggregate): real {
    0.005 * v.availableDays as real
  }

  ghost predicate NoNegativeWeight(s: Broadcast, o: Occurrence) {
    forall a :: WeightFor(s, o, a) >= 0.0
  }

  lemma ShareError(s: Broadcast, o: Occurrence, v: CostAggregate)
    requires NoNegativeWeight(s, o) && v.availableDays > 0
    ensures -HalfCents(v) <= PeriodShare(s, o)(v) - Allotted(s, o)(v) <= HalfCents(v)
  {
    NightShareExactly(s, v, o, Due(s, o, v.apartmentId));
    if WeightFor(s, o, v.apartmentId) <= 0.0 {
      ProfitGuarantee.ProductNotNegative(0.005, v.availableDays as real);
      assert Due(s, o, v.apartmentId) == 0.0;
    }
  }

  /** One invoice: what the apartments add over their periods is the weighted amount they were allotted,
      to half a cent per night. */
  lemma AllottedAmountIsAdded(s: Broadcast, o: Occurrence, values: seq<CostAggregate>)
    requires NoNegativeWeight(s, o) && forall v :: v in values ==> v.availableDays > 0
    ensures -Sum(values, HalfCents) <= Sum(values, PeriodShare(s, o)) - Sum(values, Allotted(s, o))
            <= Sum(values, HalfCents)
  {
    forall v | v in values ensures -HalfCents(v) <= PeriodShare(s, o)(v) - Allotted(s, o)(v) <= HalfCents(v) {
      ShareError(s, o, v);
    }
    SumWithin(values, PeriodShare(s, o), Allotted(s, o), HalfCents);
  }

  function ApartmentOf(v: CostAggregate): ApartmentId { v.apartmentId }

  /** The occurrence is split equally over exactly these apartments. */
  ghost predicate SplitEqually(s: Broadcast, o: Occurrence, values: seq<CostAggregate>) {
    Get(s.allocations, o.definitionId) == Some(Some(EqualWeights(Map(values, ApartmentOf))))
  }

  lemma WeightWhenSplit(s: Broadcast, o: Occurrence, values: seq<CostAggregate>, v: CostAggregate)
    requires SplitEqually(s, o, values) && v in values
    ensures |values| > 0 && WeightFor(s, o, v.apartmentId) == EqualWeight(|values|)
  {
    var k :| 0 <= k < |values| && values[k] == v;
    assert Map(values, ApartmentOf)[k] == v.apartmentId;
  }

  lemma EqualWeightsNotNegative(s: Broadcast, o: Occurrence, values: seq<CostAggregate>)
    requires SplitEqually(s, o, values) && values != []
    ensures NoNegativeWeight(s, o)
  {
    NotNegative6(1.0 / |values| as real);
  }

  lemma NotNegative6(x: real)
    requires x >= 0.0
    ensures Round6(x) >= 0.0
  {
    NearestMonotone(0.0, x * 1000000.0);
    NearestOfInt(0);
  }

  function WeightSlack(amount: real, n: real): real {
    Abs(amount) * (n * 0.0000005)
  }

  /** N rounded weights miss 1 by at most N half-units of the sixth digit. */
  lemma WeightsMissOne(n: real, w: real, amount: real)
    requires n > 0.0 && w == Round6(1.0 / n)
    ensures -WeightSlack(amount, n) <= Portion(n, Portion(amount, w)) - amount <= WeightSlack(amount, n)
  {
    var miss := n * w - 1.0;
    var gap := w - 1.0 / n;
    assert n * gap == miss by { assert n * (1.0 / n) == 1.0; }
    ProfitGuarantee.ProductNotNegative(n, gap + 0.0000005);
    ProfitGuarantee.ProductNotNegative(n, 0.0000005 - gap);
    assert n * (amount * w) - amount == amount * miss;
    ScaledMiss(amount, miss, n * 0.0000005);
  }

  lemma ScaledMiss(amount: real, miss: real, bound: real)
    requires -bound <= miss <= bound
    ensures -Abs(amount) * bound <= amount * miss <= Abs(amount) * bound
  {
    ProfitGuarantee.ProductNotNegative(Abs(amount), bound - miss);
    ProfitGuarantee.ProductNotNegative(Abs(amount), bound + miss);
  }

  lemma SameForAll(values: seq<CostAggregate>, value: CostAggregate -> real, each: real)
    requires forall v :: v in values ==> value(v) == each
    ensures Sum(values, value) == Portion(|values| as real, each)
  {
    SumConstant(values, value, each);
  }

  lemma AllottedWhenSplit(s: Broadcast, o: Occurrence, values: seq<CostAggregate>, each: real)
    requires SplitEqually(s, o, values) && values != [] && each == Portion(ChargePerMonth(s, o), EqualWeight(|values|))
    ensures Sum(values, Allotted(s, o)) == Portion(|values| as real, each)
  {
    forall v | v in values ensures Allotted(s, o)(v) == each {
      WeightWhenSplit(s, o, values, v);
    }
    SameForAll(values, Allotted(s, o), each);
  }

  lemma AllotmentIsTheAmount(s: Broadcast, o: Occurrence, values: seq<CostAggregate>)
    requires SplitEqually(s, o, values) && values != []
    ensures -WeightSlack(ChargePerMonth(s, o), |values| as real) <= Sum(values, Allotted(s, o)) - ChargePerMonth(s, o)
            <= WeightSlack(ChargePerMonth(s, o), |values| as real)
  {
    var each := Portion(ChargePerMonth(s, o), EqualWeight(|values|));
    AllottedWhenSplit(s, o, values, each);
    WeightsMissOne(|values| as real, EqualWeight(|values|), ChargePerMonth(s, o));
  }

  /** Half a cent per night of every apartment, and the weights' rounding on the amount. */
  function FanOutSlack(s: Broadcast, values: seq<CostAggregate>, o: Occurrence): real {
    Sum(values, HalfCents) + WeightSlack(ChargePerMonth(s, o), |values| as real)
  }

  /** Fan-out conserves an invoice: the apartments together add over their periods what it charges a month,
      a twelfth of an annual one and a third of a quarterly one, to within the fan-out slack. */
  lemma InvoiceIsConserved(s: Broadcast, o: Occurrence, values: seq<CostAggregate>)
    requires SplitEqually(s, o, values) && values != [] && forall v :: v in values ==> v.availableDays > 0
    ensures -FanOutSlack(s, values, o) <= Sum(values, PeriodShare(s, o)) - ChargePerMonth(s, o)
            <= FanOutSlack(s, values, o)
  {
    EqualWeightsNotNegative(s, o, values);
    AllottedAmountIsAdded(s, o, values);
    AllotmentIsTheAmount(s, o, values);
  }

  // ---------------------------------------------------------------- all invoices together

  lemma SharesAreCents(s: Broadcast, v: CostAggregate, o: Occurrence)
    ensures IsCents(FixedPart(s, v)(o)) && IsCents(VariablePart(s, v)(o))
    ensures NightShareOf(s, v)(o) == FixedPart(s, v)(o) + VariablePart(s, v)(o)
  {
    AllocationCorrection.ZeroIsCents();
    AllocationCorrection.PerDayIsCents(Portion(MonthlyAmount(s, o), WeightOf(s, o, v.apartmentId)), v.availableDays);
  }

  /** On whole-cent costs the stage adds exactly the per-night shares of all occurrences. */
  lemma EnrichedAddsShares(s: Broadcast, v: CostAggregate, occurrences: seq<Occurrence>)
    requires IsCents(v.fixedCost) && IsCents(v.variableCost)
    ensures Enriched(s, v, occurrences).fixedCost + Enriched(s, v, occurrences).variableCost ==
            v.fixedCost + v.variableCost + Sum(occurrences, NightShareOf(s, v))
  {
    forall o | o in occurrences
      ensures IsCents(FixedPart(s, v)(o)) && IsCents(VariablePart(s, v)(o))
      ensures NightShareOf(s, v)(o) == FixedPart(s, v)(o) + VariablePart(s, v)(o)
    {
      SharesAreCents(s, v, o);
    }
    ProfitGuarantee.SumOfCents(occurrences, FixedPart(s, v));
    ProfitGuarantee.SumOfCents(occurrences, VariablePart(s, v));
    SumAdds(occurrences, FixedPart(s, v), VariablePart(s, v), NightShareOf(s, v));
    AddedIsExact(v, Sum(occurrences, FixedPart(s, v)), Sum(occurrences, VariablePart(s, v)));
  }

  lemma AddedIsExact(v: CostAggregate, f: real, w: real)
    requires IsCents(v.fixedCost) && IsCents(v.variableCost) && IsCents(f) && IsCents(w)
    ensures Added(v, f, w) == v.(fixedCost := v.fixedCost + f, variableCost := v.variableCost + w)
  {
    CentsAdd(v.fixedCost, f);
    CentsAdd(v.variableCost, w);
    Round2OfCents(v.fixedCost + f);
    Round2OfCents(v.variableCost + w);
  }

  /** The invoice's definition says it is a fixed cost. */
  function FixedInvoice(s: Broadcast): Occurrence -> bool {
    (o: Occurrence) =>
      var definition := Get(s.definitions, o.definitionId);
      definition.Some? && definition.value.behavior.FixedCost?
  }

  function OtherInvoice(s: Broadcast): Occurrence -> bool {
    (o: Occurrence) => !FixedInvoice(s)(o)
  }

  /** The fixed bucket grows by the shares of the fixed invoices, the variable one by those of all others, and
      nothing else of the aggregate changes. */
  lemma EnrichedByBucket(s: Broadcast, v: CostAggregate, occurrences: seq<Occurrence>)
    requires IsCents(v.fixedCost) && IsCents(v.variableCost)
    ensures Enriched(s, v, occurrences) ==
            v.(fixedCost := v.fixedCost + Sum(Filter(occurrences, FixedInvoice(s)), NightShareOf(s, v)),
               variableCost := v.variableCost + Sum(Filter(occurrences, OtherInvoice(s)), NightShareOf(s, v)))
  {
    forall o | o in occurrences ensures IsCents(FixedPart(s, v)(o)) && IsCents(VariablePart(s, v)(o)) {
      SharesAreCents(s, v, o);
    }
    ProfitGuarantee.SumOfCents(occurrences, FixedPart(s, v));
    ProfitGuarantee.SumOfCents(occurrences, VariablePart(s, v));
    FilteredParts(s, v, occurrences);
    AddedIsExact(v, Sum(occurrences, FixedPart(s, v)), Sum(occurrences, VariablePart(s, v)));
  }

  lemma FilteredParts(s: Broadcast, v: CostAggregate, occurrences: seq<Occurrence>)
    ensures Sum(occurrences, FixedPart(s, v)) == Sum(Filter(occurrences, FixedInvoice(s)), NightShareOf(s, v))
    ensures Sum(occurrences, VariablePart(s, v)) == Sum(Filter(occurrences, OtherInvoice(s)), NightShareOf(s, v))
  {
    forall o: Occurrence
      ensures FixedPart(s, v)(o) == if FixedInvoice(s)(o) then NightShareOf(s, v)(o) else 0.0
      ensures VariablePart(s, v)(o) == if OtherInvoice(s)(o) then NightShareOf(s, v)(o) else 0.0
    {
      PartOf(s, v, o);
    }
    SumFiltered(occurrences, FixedInvoice(s), NightShareOf(s, v), FixedPart(s, v));
    SumFiltered(occurrences, OtherInvoice(s), NightShareOf(s, v), VariablePart(s, v));
  }

  lemma PartOf(s: Broadcast, v: CostAggregate, o: Occurrence)
    ensures FixedPart(s, v)(o) == if FixedInvoice(s)(o) then NightShareOf(s, v)(o) else 0.0
    ensures VariablePart(s, v)(o) == if OtherInvoice(s)(o) then NightShareOf(s, v)(o) else 0.0
  {
    if !Resolves(s, o) {
      ChargeIsMonthly(s, o, v.apartmentId);
      NightShareExactly(s, v, o, Due(s, o, v.apartmentId));
    }
  }

  /** What the stage adds to the apartment over its whole period. */
  function AddedOverPeriod(s: Broadcast, occurrences: seq<Occurrence>): CostAggregate -> real {
    (v: CostAggregate) => Portion(Sum(occurrences, NightShareOf(s, v)), v.availableDays as real)
  }

  function OverApartments(s: Broadcast, values: seq<CostAggregate>): Occurrence -> real {
    (o: Occurrence) => Sum(values, PeriodShare(s, o))
  }

  /** Summing by apartment is summing by occurrence. */
  lemma {:induction false} SumsSwap(s: Broadcast, values: seq<CostAggregate>, occurrences: seq<Occurrence>)
    ensures Sum(values, AddedOverPeriod(s, occurrences)) == Sum(occurrences, OverApartments(s, values))
  {
    if occurrences == [] {
      SumZero(values, AddedOverPeriod(s, occurrences));
    } else {
      var front, last := occurrences[..|occurrences| - 1], occurrences[|occurrences| - 1];
      SumsSwap(s, values, front);
      forall v | v in values
        ensures AddedOverPeriod(s, occurrences)(v) == AddedOverPeriod(s, front)(v) + PeriodShare(s, last)(v)
      {
        OneMoreShare(Sum(front, NightShareOf(s, v)), NightShare(s, v, last), v.availableDays as real);
      }
      SumAdds(values, AddedOverPeriod(s, front), PeriodShare(s, last), AddedOverPeriod(s, occurrences));
    }
  }

  lemma OneMoreShare(sum: real, share: real, days: real)
    ensures Portion(sum + share, days) == Portion(sum, days) + share * days
  {
  }

  function ChargeOf(s: Broadcast): Occurrence -> real {
    (o: Occurrence) => ChargePerMonth(s, o)
  }

  function SlackOf(s: Broadcast, values: seq<CostAggregate>): Occurrence -> real {
    (o: Occurrence) => FanOutSlack(s, values, o)
  }

  lemma {:induction false} HalfCentsNotNegative(values: seq<CostAggregate>)
    requires forall v :: v in values ==> v.availableDays > 0
    ensures Sum(values, HalfCents) >= 0.0
  {
    if values != [] {
      assert values == values[..|values| - 1] + [values[|values| - 1]];
      HalfCentsNotNegative(values[..|values| - 1]);
    }
  }

  lemma SkippedAddsNothing(s: Broadcast, o: Occurrence, values: seq<CostAggregate>)
    requires ChargePerMonth(s, o) == 0.0 && forall v :: v in values ==> v.availableDays > 0
    ensures -FanOutSlack(s, values, o) <= OverApartments(s, values)(o) - ChargeOf(s)(o) <= FanOutSlack(s, values, o)
  {
    forall v | v in values ensures PeriodShare(s, o)(v) == 0.0 {
      NightShareExactly(s, v, o, Due(s, o, v.apartmentId));
    }
    SumZero(values, PeriodShare(s, o));
    HalfCentsNotNegative(values);
  }

  /** All invoices: the apartments together add the total of what the invoices charge a month, and nothing
      for those that are skipped, to within the sum of the slacks. */
  lemma FanOutConservesEverything(s: Broadcast, values: seq<CostAggregate>, occurrences: seq<Occurrence>)
    requires values != [] && forall v :: v in values ==> v.availableDays > 0
    requires forall o :: o in occurrences && ChargePerMonth(s, o) != 0.0 ==> SplitEqually(s, o, values)
    ensures -Sum(occurrences, SlackOf(s, values))
            <= Sum(values, AddedOverPeriod(s, occurrences)) - Sum(occurrences, ChargeOf(s))
            <= Sum(occurrences, SlackOf(s, values))
  {
    SumsSwap(s, values, occurrences);
    forall o | o in occurrences
      ensures -SlackOf(s, values)(o) <= OverApartments(s, values)(o) - ChargeOf(s)(o) <= SlackOf(s, values)(o)
    {
      if ChargePerMonth(s, o) != 0.0 {
        InvoiceIsConserved(s, o, values);
      } else {
        SkippedAddsNothing(s, o, values);
      }
    }
    SumWithin(occurrences, OverApartments(s, values), ChargeOf(s), SlackOf(s, values));
  }

  // ---------------------------------------------------------------- an instance

  /** 12000 EUR a year, half of it on this apartment. */
  const ANNUAL := Broadcast(map["rent" := CostDefinition(CompanyScope, FixedCost, Annual)],
                            map["rent" := Some(map["flat" := 0.5])], map[])

  /** 16.67 EUR a night of 30 days. */
  lemma AnnualInvoice(v: CostAggregate, o: Occurrence)
    requires v.apartmentId == "flat" && v.availableDays == 30
    requires o.definitionId == "rent" && o.amountGross == 12000.0
    ensures NightShare(ANNUAL, v, o) == 16.67
  {
    assert MonthlyAmount(ANNUAL, o) == 1000.0 && WeightOf(ANNUAL, o, "flat") == 0.5;
    assert Portion(1000.0, 0.5) == 500.0;
    var parts := v.availableDays as real;
    assert 500.0 / parts * 100.0 == 5000.0 / 3.0;
    assert (5000.0 / 3.0).Floor == 1666;
  }
}
