/** Why Stage A may forget: what it aggregates from its two latest billing periods is what the full
    history of payment lines would give, in whatever order the state is iterated. */
module CostHistory {
  import opened Wrappers
  import opened Listings
  import opened PricingEngine
  import opened Models
  import opened CostAggregation
  import opened CostEnrichment

  // ---------------------------------------------------------------- listings of a state

  function Ending(end: Date): PaymentLine -> bool {
    (line: PaymentLine) => line.periodEnd == end
  }

  lemma MatchingIsEnding(lines: seq<PaymentLine>, end: Date)
    requires lines != [] && end == LatestEnd(lines)
    ensures Matching(lines) == Filter(lines, Ending(end))
  {
    SameFilter(lines, (line: PaymentLine) => line.periodEnd == end, Ending(end));
  }

  lemma {:induction false} SameFilter<T(!new)>(items: seq<T>, p: T -> bool, q: T -> bool)
    requires forall x :: p(x) == q(x)
    ensures Filter(items, p) == Filter(items, q)
  {
    if items != [] {
      SameFilter(items[..|items| - 1], p, q);
    }
  }

  lemma ListedValue(keys: seq<string>, lines: Lines, id: string)
    requires ListsKeys(keys, lines) && id in lines
    ensures lines[id] in Values(keys, lines)
  {
    var j :| 0 <= j < |keys| && keys[j] == id;
    assert Values(keys, lines)[j] == lines[id];
  }

  /** The latest end of a listing is the period end of any latest line of the map. */
  lemma LatestOfListing(keys: seq<string>, lines: Lines, id: string)
    requires ListsKeys(keys, lines) && IsLatest(lines, id)
    ensures Values(keys, lines) != [] && LatestEnd(Values(keys, lines)) == lines[id].periodEnd
  {
    var values := Values(keys, lines);
    ListedValue(keys, lines, id);
    var j :| 0 <= j < |values| && values[j] == lines[id];
    var k :| 0 <= k < |values| && values[k].periodEnd == LatestEnd(values);
    assert keys[k] in keys;
  }

  lemma SomeLatest(state: Lines, full: Lines) returns (id: string)
    requires full != map[] && Covers(state, full)
    ensures IsLatest(full, id) && IsLatest(state, id) && state[id] == full[id]
  {
    id := PruneCovers(full);
    CoveredAgrees(state, full, id);
  }

  function HeldBy(state: Lines): string -> bool {
    (id: string) => id in state
  }

  lemma MissingIsOlder(state: Lines, full: Lines, latest: string, id: string)
    requires Covers(state, full) && IsLatest(full, latest) && id in full && id !in state
    ensures full[id].periodEnd < full[latest].periodEnd
  {
    MissingIsNotLatest(state, full, id);
    var newer :| newer in state && full[id].periodEnd < state[newer].periodEnd;
    assert newer in full;
  }

  /** Leaving the missing lines out of a listing of the full history changes nothing that is aggregated. */
  lemma SameAggregate(state: Lines, full: Lines, all: seq<string>, keys: seq<string>)
    requires full != map[] && Covers(state, full)
    requires ListsKeys(all, full) && ListsKeys(keys, state) && keys == Filter(all, HeldBy(state))
    ensures AggregateCost(Values(all, full)) == AggregateCost(Values(keys, state))
  {
    var latest := SomeLatest(state, full);
    LatestOfListing(all, full, latest);
    LatestOfListing(keys, state, latest);
    var end := full[latest].periodEnd;
    forall id | id in all && id !in state ensures !Ending(end)(full[id]) {
      MissingIsOlder(state, full, latest, id);
    }
    FilterOfSubmap(all, full, state, HeldBy(state), Ending(end));
    MatchingIsEnding(Values(all, full), end);
    MatchingIsEnding(Values(keys, state), end);
    SameMatchingSameAggregate(Values(all, full), Values(keys, state));
  }

  lemma SameMatchingSameAggregate(lines: seq<PaymentLine>, lines': seq<PaymentLine>)
    requires lines != [] && lines' != []
    requires Matching(lines) == Matching(lines') && LatestEnd(lines) == LatestEnd(lines')
    ensures AggregateCost(lines) == AggregateCost(lines')
  {
  }

  /** The listing of the state that follows a listing of the full history. */
  lemma OrderOfState(state: Lines, full: Lines, all: seq<string>)
    requires IsCurrent(state, full) && ListsKeys(all, full)
    ensures ListsKeys(Filter(all, HeldBy(state)), state)
  {
    FilterDistinct(all, HeldBy(state));
  }

  lemma DistinctAppend<T>(a: seq<T>, b: seq<T>)
    requires Distinct(a) && Distinct(b) && forall x :: x in a ==> x !in b
    ensures Distinct(a + b)
  {
    forall i, j | 0 <= i < j < |a + b| ensures (a + b)[i] != (a + b)[j] {
      if i < |a| <= j {
        assert a[i] in a && b[j - |a|] in b;
      }
    }
  }

  /** A listing of the full history that goes through the state in this order. */
  lemma OrderOfHistory(state: Lines, full: Lines, keys: seq<string>) returns (all: seq<string>)
    requires IsCurrent(state, full) && ListsKeys(keys, state)
    ensures ListsKeys(all, full) && Filter(all, HeldBy(state)) == keys
  {
    var rest := Listed(full.Keys - state.Keys);
    all := keys + rest;
    DistinctAppend(keys, rest);
    FilterAppend(keys, rest, HeldBy(state));
    FilterAll(keys, HeldBy(state));
    FilterNone(rest, HeldBy(state));
  }

  /** cost is the aggregate of these lines, read in some order. */
  ghost predicate IsAggregateOf(cost: Option<Aggregation>, lines: Lines) {
    exists keys :: ListsKeys(keys, lines) && cost == AggregateCost(Values(keys, lines))
  }

  /** Pruning refines full history, end to end: what can be aggregated from the lines kept, over all
      orders of iteration, is exactly what can be aggregated from the latest version of every line ever
      received. Nothing is asked of the lines but that the pruned ones are older than some kept one,
      which PruningIsSafeExactly characterizes. */
  lemma AggregateOfPrunedIsAggregateOfFull(received: seq<PaymentLine>, cost: Option<Aggregation>)
    requires Covers(Pruned(received), Full(received))
    ensures IsAggregateOf(cost, Pruned(received)) <==> IsAggregateOf(cost, Full(received))
  {
    var state, full := Pruned(received), Full(received);
    StateIsCurrent(received);
    if full == map[] {
      assert state == full;
    } else {
      if keys :| ListsKeys(keys, state) && cost == AggregateCost(Values(keys, state)) {
        var all := OrderOfHistory(state, full, keys);
        SameAggregate(state, full, all, keys);
      }
      if all :| ListsKeys(all, full) && cost == AggregateCost(Values(all, full)) {
        OrderOfState(state, full, all);
        SameAggregate(state, full, all, Filter(all, HeldBy(state)));
      }
    }
  }

  // ---------------------------------------------------------------- order-free aggregation

  /** The lines of a billing period start on the same day. */
  ghost predicate OnePeriodStart(matching: seq<PaymentLine>) {
    forall x, y :: x in matching && y in matching ==> x.periodStart == y.periodStart
  }

  /** Lines of one concept are allocated alike. */
  ghost predicate OneAllocationPerConcept(lines: seq<PaymentLine>) {
    forall x, y :: x in lines && y in lines && x.concept == y.concept ==>
      x.behavior == y.behavior && x.allocationMethod == y.allocationMethod
  }

  /** Lines of one concept are charged alike. */
  ghost predicate OneRatePerConcept(lines: seq<PaymentLine>) {
    forall x, y :: x in lines && y in lines && x.concept == y.concept ==>
      RateOfLine(x) == RateOfLine(y) && x.revenueBase == y.revenueBase
  }

  /** What the aggregation takes from whichever line it meets first is the same on all of them. */
  ghost predicate Uniform(matching: seq<PaymentLine>) {
    && OnePeriodStart(matching)
    && OneAllocationPerConcept(Filter(matching, IsDeferred))
    && OneRatePerConcept(Filter(matching, IsPercentage))
  }

  /** Equal but for the order of the per-concept entries. */
  predicate SameAmounts(a: Aggregation, b: Aggregation) {
    && a.(pending := [], percentageCosts := []) == b.(pending := [], percentageCosts := [])
    && multiset(a.pending) == multiset(b.pending)
    && multiset(a.percentageCosts) == multiset(b.percentageCosts)
  }

  lemma TotalPermuted(a: seq<PaymentLine>, b: seq<PaymentLine>, keep: PaymentLine -> bool, value: PaymentLine -> real)
    requires multiset(a) == multiset(b)
    ensures TotalOf(a, keep, value) == TotalOf(b, keep, value)
  {
    FilterPermuted(a, b, keep);
    SumPermuted(Filter(a, keep), Filter(b, keep), value);
  }

  lemma AveragePermuted(a: seq<PaymentLine>, b: seq<PaymentLine>)
    requires multiset(a) == multiset(b)
    ensures Average(a) == Average(b)
  {
    SameMembers(a, b);
    SumPermuted(a, b, Gross);
  }

  lemma NettedPermuted(a: seq<PaymentLine>, b: seq<PaymentLine>, days: int)
    requires multiset(a) == multiset(b)
    ensures NettedOf(a, days) == NettedOf(b, days)
  {
    TotalPermuted(a, b, IsOtaRelated, Gross);
    TotalPermuted(a, b, IsCleaning, Gross);
    TotalPermuted(a, b, IsLaundry, Gross);
    TotalPermuted(a, b, IsBookingScoped, Gross);
  }

  lemma ConceptsPermuted(a: seq<PaymentLine>, b: seq<PaymentLine>)
    requires multiset(a) == multiset(b)
    ensures multiset(ConceptsOf(a)) == multiset(ConceptsOf(b))
    ensures forall c :: HasConcept(a, c) <==> HasConcept(b, c)
  {
    SameMembers(a, b);
    forall c ensures c in ConceptsOf(a) <==> c in ConceptsOf(b)
             ensures HasConcept(a, c) <==> HasConcept(b, c)
    {
      ConceptsAre(a, c);
      ConceptsAre(b, c);
      SameConcepts(a, b, c);
    }
    SameElementsPermute(ConceptsOf(a), ConceptsOf(b));
  }

  lemma SameConcepts(a: seq<PaymentLine>, b: seq<PaymentLine>, c: Concept)
    requires forall x :: x in a <==> x in b
    ensures HasConcept(a, c) <==> HasConcept(b, c)
  {
    if HasConcept(a, c) {
      var k :| 0 <= k < |a| && a[k].concept == c;
      assert a[k] in b;
    }
    if HasConcept(b, c) {
      var k :| 0 <= k < |b| && b[k].concept == c;
      assert b[k] in a;
    }
  }

  lemma ConceptsAre(lines: seq<PaymentLine>, c: Concept)
    ensures c in ConceptsOf(lines) <==> HasConcept(lines, c)
  {
    if HasConcept(lines, c) {
      var k :| 0 <= k < |lines| && lines[k].concept == c;
      assert lines[k] in lines;
    }
  }

  lemma PendingPermuted(a: seq<PaymentLine>, b: seq<PaymentLine>)
    requires multiset(a) == multiset(b) && OneAllocationPerConcept(a)
    ensures multiset(PendingCorrections(a)) == multiset(PendingCorrections(b))
  {
    SameMembers(a, b);
    ConceptsPermuted(a, b);
    var entry := (c: Concept) => if HasConcept(a, c) then PendingFor(a, c)
      else PendingCorrection(c, FixedCost, Direct, 0.0);
    assert PendingCorrections(a) == Map(ConceptsOf(a), entry);
    forall c | HasConcept(b, c) ensures PendingFor(b, c) == entry(c) {
      var x, y := FirstWith(a, c), FirstWith(b, c);
      assert y in a;
      TotalPermuted(a, b, (line: PaymentLine) => line.concept == c, MonthlyEquivalent);
    }
    assert PendingCorrections(b) == Map(ConceptsOf(b), entry);
    MapPermuted(ConceptsOf(a), ConceptsOf(b), entry);
  }

  lemma SamePercentage(a: seq<PaymentLine>, b: seq<PaymentLine>, c: Concept)
    requires OneRatePerConcept(a) && HasConcept(a, c) && HasConcept(b, c)
    requires forall x :: x in b ==> x in a
    ensures PercentageFor(b, c) == PercentageFor(a, c)
  {
    var x, y := FirstWith(a, c), FirstWith(b, c);
    assert x in a && y in a;
  }

  lemma PercentagesPermuted(a: seq<PaymentLine>, b: seq<PaymentLine>)
    requires multiset(a) == multiset(b) && OneRatePerConcept(a)
    ensures multiset(PercentageCosts(a)) == multiset(PercentageCosts(b))
  {
    SameMembers(a, b);
    ConceptsPermuted(a, b);
    var entry := (c: Concept) => if HasConcept(a, c) then PercentageFor(a, c) else PercentageCost(c, 0.0, None);
    assert PercentageCosts(a) == Map(ConceptsOf(a), entry);
    forall c | HasConcept(b, c) ensures PercentageFor(b, c) == entry(c) {
      SamePercentage(a, b, c);
    }
    assert PercentageCosts(b) == Map(ConceptsOf(b), entry);
    MapPermuted(ConceptsOf(a), ConceptsOf(b), entry);
  }

  lemma BucketsPermuted(a: seq<PaymentLine>, b: seq<PaymentLine>, days: int)
    requires multiset(a) == multiset(b)
    ensures PerDay(TotalOf(a, IsFixedNow, MonthlyEquivalent), days) ==
            PerDay(TotalOf(b, IsFixedNow, MonthlyEquivalent), days)
    ensures PerDay(TotalOf(a, IsVariableNow, MonthlyEquivalent), days) ==
            PerDay(TotalOf(b, IsVariableNow, MonthlyEquivalent), days)
    ensures Average(Filter(a, IsOneTime)) == Average(Filter(b, IsOneTime))
  {
    TotalPermuted(a, b, IsFixedNow, MonthlyEquivalent);
    TotalPermuted(a, b, IsVariableNow, MonthlyEquivalent);
    FilterPermuted(a, b, IsOneTime);
    AveragePermuted(Filter(a, IsOneTime), Filter(b, IsOneTime));
  }

  lemma NumbersPermuted(a: seq<PaymentLine>, b: seq<PaymentLine>, end: Date)
    requires a != [] && b != [] && multiset(a) == multiset(b)
    requires a[0].periodStart == b[0].periodStart
    ensures AggregateMatching(a, end).(pending := [], percentageCosts := []) ==
            AggregateMatching(b, end).(pending := [], percentageCosts := [])
  {
    var days := end - a[0].periodStart + 1;
    assert |a| == |b| by { SameMembers(a, b); }
    SumPermuted(a, b, Gross);
    BucketsPermuted(a, b, days);
    NettedPermuted(a, b, days);
  }

  lemma EntriesPermuted(a: seq<PaymentLine>, b: seq<PaymentLine>, end: Date)
    requires a != [] && b != [] && multiset(a) == multiset(b) && Uniform(a)
    ensures multiset(AggregateMatching(a, end).pending) == multiset(AggregateMatching(b, end).pending)
    ensures multiset(AggregateMatching(a, end).percentageCosts) == multiset(AggregateMatching(b, end).percentageCosts)
  {
    FilterPermuted(a, b, IsDeferred);
    PendingPermuted(Filter(a, IsDeferred), Filter(b, IsDeferred));
    FilterPermuted(a, b, IsPercentage);
    PercentagesPermuted(Filter(a, IsPercentage), Filter(b, IsPercentage));
  }

  lemma UniformIsOrderFree(a: seq<PaymentLine>, b: seq<PaymentLine>, end: Date)
    requires a != [] && b != [] && multiset(a) == multiset(b) && Uniform(a)
    ensures SameAmounts(AggregateMatching(a, end), AggregateMatching(b, end))
  {
    assert b[0] in a by { SameMembers(a, b); }
    NumbersPermuted(a, b, end);
    EntriesPermuted(a, b, end);
  }

  // ---------------------------------------------------------------- and only then

  /** The same lines with this one first. */
  lemma MovedToFront(a: seq<PaymentLine>, x: PaymentLine) returns (b: seq<PaymentLine>)
    requires x in a
    ensures b != [] && b[0] == x && multiset(b) == multiset(a)
  {
    var i :| 0 <= i < |a| && a[i] == x;
    MultisetOfRemoved(a, i);
    b := [x] + (a[..i] + a[i + 1..]);
  }

  lemma FirstOfFiltered(b: seq<PaymentLine>, keep: PaymentLine -> bool)
    requires b != [] && keep(b[0])
    ensures Filter(b, keep) != [] && Filter(b, keep)[0] == b[0]
  {
    assert b == [b[0]] + b[1..];
    FilterAppend([b[0]], b[1..], keep);
    FilterAll([b[0]], keep);
  }

  lemma FirstDecidesPending(lines: seq<PaymentLine>, e: PendingCorrection)
    requires lines != [] && e in PendingCorrections(lines) && e.concept == lines[0].concept
    ensures e.behavior == lines[0].behavior && e.allocationMethod == lines[0].allocationMethod
  {
    var k :| 0 <= k < |PendingCorrections(lines)| && PendingCorrections(lines)[k] == e;
    assert FirstWith(lines, e.concept) == lines[0];
  }

  lemma FirstDecidesPercentage(lines: seq<PaymentLine>, e: PercentageCost)
    requires lines != [] && e in PercentageCosts(lines) && e.concept == lines[0].concept
    ensures e.rate == RateOfLine(lines[0]) && e.revenueBase == lines[0].revenueBase
  {
    var k :| 0 <= k < |PercentageCosts(lines)| && PercentageCosts(lines)[k] == e;
    assert FirstWith(lines, e.concept) == lines[0];
  }

  lemma EntryOfFirst(lines: seq<PaymentLine>) returns (pending: PendingCorrection, pc: PercentageCost)
    requires lines != []
    ensures pending in PendingCorrections(lines) && pending.concept == lines[0].concept
    ensures pc in PercentageCosts(lines) && pc.concept == lines[0].concept
  {
    assert lines[0] in lines;
    var k :| 0 <= k < |ConceptsOf(lines)| && ConceptsOf(lines)[k] == lines[0].concept;
    pending, pc := PendingCorrections(lines)[k], PercentageCosts(lines)[k];
  }

  /** Every order of the lines gives the same amounts. */
  ghost predicate IsOrderFree(a: seq<PaymentLine>, end: Date) {
    forall b :: b != [] && a != [] && multiset(b) == multiset(a) ==>
      SameAmounts(AggregateMatching(a, end), AggregateMatching(b, end))
  }

  lemma OrderFreeHasOneStart(a: seq<PaymentLine>, end: Date, x: PaymentLine)
    requires a != [] && IsOrderFree(a, end) && x in a
    ensures x.periodStart == a[0].periodStart
  {
    var b := MovedToFront(a, x);
    assert SameAmounts(AggregateMatching(a, end), AggregateMatching(b, end));
    assert AggregateMatching(a, end).periodStart == a[0].periodStart;
    assert AggregateMatching(b, end).periodStart == b[0].periodStart;
  }

  lemma SamePending(a: seq<PaymentLine>, b: seq<PaymentLine>, end: Date)
    requires a != [] && b != [] && SameAmounts(AggregateMatching(a, end), AggregateMatching(b, end))
    ensures multiset(PendingCorrections(Filter(a, IsDeferred))) == multiset(PendingCorrections(Filter(b, IsDeferred)))
    ensures multiset(PercentageCosts(Filter(a, IsPercentage))) == multiset(PercentageCosts(Filter(b, IsPercentage)))
  {
  }

  lemma OrderFreeHasOneAllocation(a: seq<PaymentLine>, end: Date, x: PaymentLine, y: PaymentLine)
    requires a != [] && IsOrderFree(a, end) && x in a && y in a && IsDeferred(x) && IsDeferred(y)
             && x.concept == y.concept
    ensures x.behavior == y.behavior && x.allocationMethod == y.allocationMethod
  {
    var first := MovedToFront(a, x);
    var other := MovedToFront(a, y);
    FirstOfFiltered(first, IsDeferred);
    FirstOfFiltered(other, IsDeferred);
    var e, _ := EntryOfFirst(Filter(first, IsDeferred));
    SamePending(a, first, end);
    SamePending(a, other, end);
    SameMembers(PendingCorrections(Filter(first, IsDeferred)), PendingCorrections(Filter(other, IsDeferred)));
    FirstDecidesPending(Filter(first, IsDeferred), e);
    FirstDecidesPending(Filter(other, IsDeferred), e);
  }

  lemma OrderFreeHasOneRate(a: seq<PaymentLine>, end: Date, x: PaymentLine, y: PaymentLine)
    requires a != [] && IsOrderFree(a, end) && x in a && y in a && IsPercentage(x) && IsPercentage(y)
             && x.concept == y.concept
    ensures RateOfLine(x) == RateOfLine(y) && x.revenueBase == y.revenueBase
  {
    var first := MovedToFront(a, x);
    var other := MovedToFront(a, y);
    FirstOfFiltered(first, IsPercentage);
    FirstOfFiltered(other, IsPercentage);
    var _, e := EntryOfFirst(Filter(first, IsPercentage));
    SamePending(a, first, end);
    SamePending(a, other, end);
    SameMembers(PercentageCosts(Filter(first, IsPercentage)), PercentageCosts(Filter(other, IsPercentage)));
    FirstDecidesPercentage(Filter(first, IsPercentage), e);
    FirstDecidesPercentage(Filter(other, IsPercentage), e);
  }

  /** Exactly when nothing Stage A emits depends on the order in which it reads the lines of a period:
      they start on the same day, and the deferred lines of a concept are allocated alike and its
      percentage lines charged alike. */
  lemma AggregationIsOrderFreeExactly(a: seq<PaymentLine>, end: Date)
    requires a != []
    ensures IsOrderFree(a, end) <==> Uniform(a)
  {
    if Uniform(a) {
      forall b | b != [] && multiset(b) == multiset(a)
        ensures SameAmounts(AggregateMatching(a, end), AggregateMatching(b, end))
      {
        UniformIsOrderFree(a, b, end);
      }
    }
    if IsOrderFree(a, end) {
      forall x | x in a ensures x.periodStart == a[0].periodStart {
        OrderFreeHasOneStart(a, end, x);
      }
      forall x, y | x in Filter(a, IsDeferred) && y in Filter(a, IsDeferred) && x.concept == y.concept
        ensures x.behavior == y.behavior && x.allocationMethod == y.allocationMethod
      {
        OrderFreeHasOneAllocation(a, end, x, y);
      }
      forall x, y | x in Filter(a, IsPercentage) && y in Filter(a, IsPercentage) && x.concept == y.concept
        ensures RateOfLine(x) == RateOfLine(y) && x.revenueBase == y.revenueBase
      {
        OrderFreeHasOneRate(a, end, x, y);
      }
    }
  }
}
