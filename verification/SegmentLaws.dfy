/** What holds in every reachable world of Stage B: alignment of the map states, the materialized
    view, the floor-breach streaks and the freshness watchdog. */
module SegmentLaws {
  import opened Wrappers
  import opened PricingEngine
  import opened Models
  import opened CrossJoin
  import opened SegmentRuns

  // ---------------------------------------------------------------- invariants

  /** The five map states agree with each other. */
  ghost predicate Aligned(s: Segment) {
    && |s.apartments| <= MAX_ENTRIES
    && s.apartmentDeadlines.Keys == s.apartments.Keys
    && s.nightDeadlines.Keys == s.nights.Keys
    && (forall a :: a in s.apartments ==> s.apartments[a].apartmentId == a)
    && (forall pair :: pair in s.breachSince ==> Joined(s, pair))
  }

  /** The last decision emitted for a pair was computed from the snapshots stored now. */
  ghost predicate Fresh(price: Pricer, w: World, pair: Pair)
    requires Joined(w.seg, pair)
  {
    && pair in w.view
    && w.view[pair].outcome == price(w.seg.apartments[pair.apartment], Known(w.seg.nights[pair.night]), pair.night,
                                     w.view[pair].at, w.view[pair].prior)
    && w.view[pair].at <= w.clock
  }

  ghost predicate Materialized(price: Pricer, w: World) {
    forall pair :: Joined(w.seg, pair) ==> Fresh(price, w, pair)
  }

  /** since is the day of the first decision of the longest suffix of breaching decisions. */
  ghost predicate StreakMatches(ds: seq<PriceDecision>, since: Option<Date>) {
    if ds == [] || !Breaches(ds[|ds| - 1]) then since.None?
    else exists k :: StreakStartsAt(ds, k) && since == Some(DayOf(ds[k].decidedAt))
  }

  ghost predicate StreakStartsAt(ds: seq<PriceDecision>, k: int) {
    && 0 <= k < |ds|
    && (forall j :: k <= j < |ds| ==> Breaches(ds[j]))
    && (k > 0 ==> !Breaches(ds[k - 1]))
  }

  /** The history kept for one pair agrees with its stored streak and its last decision. */
  ghost predicate PairRecorded(w: World, pair: Pair) {
    && (pair in w.decisions ==>
          && w.decisions[pair] != []
          && StreakMatches(w.decisions[pair], Get(w.seg.breachSince, pair))
          && pair in w.view
          && w.view[pair].outcome.decision == w.decisions[pair][|w.decisions[pair]| - 1])
    && (pair in w.seg.breachSince ==> w.seg.breachSince[pair] <= DayOf(w.clock))
    && (pair in w.view ==> w.view[pair].outcome.decision.floorBreachDays >= 0)
  }

  /** Every stored streak matches all the decisions emitted for its pair since the pair joined. */
  ghost predicate StreaksMatch(w: World) {
    forall pair :: PairRecorded(w, pair) && (pair in w.decisions <==> Joined(w.seg, pair))
  }

  /** Every deadline is 48 hours after the last accepted update of its key, and has its timer. */
  ghost predicate Watched(w: World) {
    && (forall a :: a in w.seg.apartmentDeadlines ==>
          && a in w.costAcceptedAt
          && w.seg.apartmentDeadlines[a] == NextDeadline(w.costAcceptedAt[a])
          && w.seg.apartmentDeadlines[a] in w.seg.timers)
    && (forall n :: n in w.seg.nightDeadlines ==>
          && n in w.nightAcceptedAt
          && w.seg.nightDeadlines[n] == NextDeadline(w.nightAcceptedAt[n])
          && w.seg.nightDeadlines[n] in w.seg.timers)
  }

  ghost predicate Inv(price: Pricer, w: World) {
    Aligned(w.seg) && Materialized(price, w) && StreaksMatch(w) && Watched(w)
  }

  // ---------------------------------------------------------------- what storing does

  /** Storing changes no joined pair outside the touched ones, and keeps exactly the streaks of the
      pairs that stay joined. */
  ghost predicate Covers(before: Segment, stored: Segment, touched: set<Pair>) {
    && AllJoined(stored, touched)
    && (forall pair :: Joined(stored, pair) && pair !in touched ==>
          && Joined(before, pair)
          && stored.apartments[pair.apartment] == before.apartments[pair.apartment]
          && stored.nights[pair.night] == before.nights[pair.night])
    && (forall pair :: Get(stored.breachSince, pair) ==
                       if Joined(stored, pair) then Get(before.breachSince, pair) else None)
  }

  lemma DropApartmentAligned(s: Segment, victim: ApartmentId)
    requires Aligned(s) && victim in s.apartments
    ensures Aligned(DropApartment(s, victim))
    ensures |DropApartment(s, victim).apartments| == |s.apartments| - 1
  {
    var dropped := DropApartment(s, victim);
    assert dropped.apartments.Keys == s.apartments.Keys - {victim};
    assert |dropped.apartments| == |dropped.apartments.Keys|;
    assert |s.apartments| == |s.apartments.Keys|;
  }

  lemma PutCostSize(s: Segment, value: CostAggregate, now: Millis)
    requires Aligned(s) && !NeedsEviction(s, value)
    ensures |PutCost(s, value, now).apartments| <= MAX_ENTRIES
  {
    var put := PutCost(s, value, now);
    assert put.apartments.Keys == s.apartments.Keys + {value.apartmentId};
    assert |put.apartments| == |put.apartments.Keys|;
    assert |s.apartments| == |s.apartments.Keys|;
  }

  lemma PutCostAligned(s: Segment, value: CostAggregate, now: Millis)
    requires Aligned(s) && !NeedsEviction(s, value)
    ensures Aligned(PutCost(s, value, now))
  {
    PutCostSize(s, value, now);
  }

  /** The stored cost keeps at most 500 apartments and never evicts the one being written. */
  lemma StoreCostAligned(s: Segment, value: CostAggregate, now: Millis, victim: ApartmentId)
    requires Aligned(s) && AcceptsCost(s, value) && MayEvict(s, value, victim)
    ensures Aligned(StoreCost(s, value, now, victim))
    ensures NeedsEviction(s, value) ==> victim != value.apartmentId && |s.apartments| == MAX_ENTRIES
  {
    if NeedsEviction(s, value) {
      DropApartmentAligned(s, victim);
      PutCostAligned(DropApartment(s, victim), value, now);
    } else {
      PutCostAligned(s, value, now);
    }
  }

  lemma StoreCostKeepsSnapshots(s: Segment, stored: Segment, value: CostAggregate, now: Millis, victim: ApartmentId,
                                pair: Pair)
    requires stored == StoreCost(s, value, now, victim)
    requires Joined(stored, pair) && pair !in Row(value.apartmentId, stored.nights)
    ensures Joined(s, pair)
    ensures stored.apartments[pair.apartment] == s.apartments[pair.apartment]
    ensures stored.nights[pair.night] == s.nights[pair.night]
  {
    assert pair == Pair(pair.apartment, pair.night);
    assert pair.apartment != value.apartmentId;
  }

  lemma StoreCostKeepsStreak(s: Segment, stored: Segment, value: CostAggregate, now: Millis, victim: ApartmentId,
                             pair: Pair)
    requires Aligned(s) && NeedsEviction(s, value) ==> victim != value.apartmentId
    requires Aligned(s) && stored == StoreCost(s, value, now, victim)
    ensures Get(stored.breachSince, pair) == if Joined(stored, pair) then Get(s.breachSince, pair) else None
  {
  }

  lemma StoreCostCovers(s: Segment, value: CostAggregate, now: Millis, victim: ApartmentId)
    requires Aligned(s) && AcceptsCost(s, value) && MayEvict(s, value, victim)
    ensures var stored := StoreCost(s, value, now, victim); Covers(s, stored, Row(value.apartmentId, stored.nights))
  {
    StoreCostAligned(s, value, now, victim);
    var stored := StoreCost(s, value, now, victim);
    forall pair | Joined(stored, pair) && pair !in Row(value.apartmentId, stored.nights)
      ensures Joined(s, pair)
      ensures stored.apartments[pair.apartment] == s.apartments[pair.apartment]
      ensures stored.nights[pair.night] == s.nights[pair.night]
    {
      StoreCostKeepsSnapshots(s, stored, value, now, victim, pair);
    }
    forall pair
      ensures Get(stored.breachSince, pair) == if Joined(stored, pair) then Get(s.breachSince, pair) else None
    {
      StoreCostKeepsStreak(s, stored, value, now, victim, pair);
    }
  }

  lemma DropNightsAligned(s: Segment, expired: set<Date>)
    requires Aligned(s)
    ensures Aligned(DropNights(s, expired))
  {
  }

  /** A known night stays known: an event only adds to what is stored. */
  lemma PutNightAligned(s: Segment, n: Date, night: NightSnapshot, now: Millis)
    requires Aligned(s) && (n in s.nights && IsKnown(s.nights[n]) ==> IsKnown(night))
    ensures Aligned(PutNight(s, n, night, now))
  {
  }

  lemma StoreMarketAligned(s: Segment, m: MarketPrice, now: Millis)
    requires Aligned(s) && AcceptsMarket(s, m, now)
    ensures Aligned(StoreMarket(s, m, now))
  {
    var expired := ExpiredNights(s.nights, DayOf(now));
    DropNightsAligned(s, expired);
    PutNightAligned(DropNights(s, expired), m.targetDate, MergedNight(Get(s.nights, m.targetDate), m), now);
  }

  lemma StoreMarketKeepsStreak(s: Segment, stored: Segment, m: MarketPrice, now: Millis, pair: Pair)
    requires Aligned(s) && AcceptsMarket(s, m, now) && stored == StoreMarket(s, m, now)
    ensures Get(stored.breachSince, pair) == if Joined(stored, pair) then Get(s.breachSince, pair) else None
  {
  }

  lemma StoreMarketKeepsSnapshots(s: Segment, stored: Segment, m: MarketPrice, now: Millis, pair: Pair)
    requires AcceptsMarket(s, m, now) && stored == StoreMarket(s, m, now)
    requires Joined(stored, pair) && pair !in Touched(stored, m)
    ensures Joined(s, pair)
    ensures stored.apartments[pair.apartment] == s.apartments[pair.apartment]
    ensures stored.nights[pair.night] == s.nights[pair.night]
  {
    assert pair == Pair(pair.apartment, pair.night);
    assert pair.night != m.targetDate;
  }

  lemma StoreMarketCovers(s: Segment, m: MarketPrice, now: Millis)
    requires Aligned(s) && AcceptsMarket(s, m, now)
    ensures var stored := StoreMarket(s, m, now); Covers(s, stored, Touched(stored, m))
  {
    var stored := StoreMarket(s, m, now);
    forall pair | Joined(stored, pair) && pair !in Touched(stored, m)
      ensures Joined(s, pair)
      ensures stored.apartments[pair.apartment] == s.apartments[pair.apartment]
      ensures stored.nights[pair.night] == s.nights[pair.night]
    {
      StoreMarketKeepsSnapshots(s, stored, m, now, pair);
    }
    forall pair
      ensures Get(stored.breachSince, pair) == if Joined(stored, pair) then Get(s.breachSince, pair) else None
    {
      StoreMarketKeepsStreak(s, stored, m, now, pair);
    }
  }

  // ---------------------------------------------------------------- what repricing keeps

  lemma AdvanceAligned(price: Pricer, w: World, stored: Segment, touched: set<Pair>, now: Millis)
    requires Aligned(stored) && AllJoined(stored, touched)
    ensures Aligned(Advance(price, w, stored, touched, now).seg)
  {
  }

  lemma AdvanceMaterialized(price: Pricer, w: World, stored: Segment, touched: set<Pair>, now: Millis)
    requires Materialized(price, w) && Covers(w.seg, stored, touched) && w.clock <= now
    ensures Materialized(price, Advance(price, w, stored, touched, now))
  {
    var w' := Advance(price, w, stored, touched, now);
    forall pair | Joined(w'.seg, pair) ensures Fresh(price, w', pair) {
      assert Joined(stored, pair);
      if pair !in touched {
        assert Joined(w.seg, pair) && Fresh(price, w, pair);
      }
    }
  }

  lemma StreakGrows(ds: seq<PriceDecision>, since: Option<Date>, d: PriceDecision, since': Option<Date>)
    requires StreakMatches(ds, since)
    requires since' == if !Breaches(d) then None else if since.Some? then since else Some(DayOf(d.decidedAt))
    ensures StreakMatches(ds + [d], since')
  {
    var ds' := ds + [d];
    if Breaches(d) {
      if since.Some? {
        var k :| StreakStartsAt(ds, k) && since == Some(DayOf(ds[k].decidedAt));
        assert StreakStartsAt(ds', k);
      } else {
        assert StreakStartsAt(ds', |ds|);
      }
    }
  }

  /** The streak a touched pair is priced with is the streak of what was emitted for it so far. */
  lemma PriorStreak(w: World, stored: Segment, touched: set<Pair>, pair: Pair)
    requires Aligned(w.seg) && StreaksMatch(w) && Covers(w.seg, stored, touched) && pair in touched
    ensures Joined(stored, pair)
    ensures StreakMatches(Since(w.decisions, pair), Get(stored.breachSince, pair))
    ensures Get(stored.breachSince, pair).Some? ==> Get(stored.breachSince, pair).value <= DayOf(w.clock)
  {
    assert Joined(stored, pair);
    assert Get(stored.breachSince, pair) == Get(w.seg.breachSince, pair);
  }

  /** The entries of one pair after repricing. */
  lemma EntriesAfter(price: Pricer, w: World, stored: Segment, touched: set<Pair>, now: Millis, pair: Pair)
    requires AllJoined(stored, touched)
    ensures var w' := Advance(price, w, stored, touched, now);
            var batch := Reprice(price, stored, touched, now);
            && (pair in batch <==> pair in touched)
            && Get(w'.decisions, pair) ==
               (if !Joined(stored, pair) then None
                else if pair in batch then Some(Since(w.decisions, pair) + [batch[pair].decision])
                else Get(w.decisions, pair))
            && Get(w'.view, pair) ==
               (if pair in batch then Some(Emission(batch[pair], now, Get(stored.breachSince, pair)))
                else Get(w.view, pair))
            && Get(w'.seg.breachSince, pair) ==
               (if pair in batch then batch[pair].breachSince else Get(stored.breachSince, pair))
  {
    var batch := Reprice(price, stored, touched, now);
    NextDecisionsAt(w.decisions, batch, stored, pair);
    NextViewAt(w.view, batch, stored.breachSince, now, pair);
    UpdateStreaksAt(stored.breachSince, batch, pair);
  }

  /** What one repriced pair adds to the history. */
  lemma TouchedPair(price: Pricer, w: World, stored: Segment, touched: set<Pair>, now: Millis, pair: Pair)
    requires Lawful(price) && Aligned(w.seg) && StreaksMatch(w) && Covers(w.seg, stored, touched) && w.clock <= now
    requires pair in touched
    ensures PairRecorded(Advance(price, w, stored, touched, now), pair)
    ensures pair in Advance(price, w, stored, touched, now).decisions
  {
    DayMonotone(w.clock, now);
    PriorStreak(w, stored, touched, pair);
    EntriesAfter(price, w, stored, touched, now, pair);
    var since := Get(stored.breachSince, pair);
    var o := price(stored.apartments[pair.apartment], Known(stored.nights[pair.night]), pair.night, now, since);
    StreakGrows(Since(w.decisions, pair), since, o.decision, o.breachSince);
  }

  lemma UntouchedPair(price: Pricer, w: World, stored: Segment, touched: set<Pair>, now: Millis, pair: Pair)
    requires StreaksMatch(w) && Covers(w.seg, stored, touched) && w.clock <= now && pair !in touched
    ensures pair in Advance(price, w, stored, touched, now).decisions <==> Joined(stored, pair)
    ensures PairRecorded(Advance(price, w, stored, touched, now), pair)
  {
    DayMonotone(w.clock, now);
    EntriesAfter(price, w, stored, touched, now, pair);
    assert PairRecorded(w, pair);
    assert Get(stored.breachSince, pair) == if Joined(stored, pair) then Get(w.seg.breachSince, pair) else None;
  }

  lemma AdvanceStreaksMatch(price: Pricer, w: World, stored: Segment, touched: set<Pair>, now: Millis)
    requires Lawful(price) && Aligned(w.seg) && StreaksMatch(w) && Covers(w.seg, stored, touched) && w.clock <= now
    ensures StreaksMatch(Advance(price, w, stored, touched, now))
  {
    var w' := Advance(price, w, stored, touched, now);
    forall pair ensures PairRecorded(w', pair) && (pair in w'.decisions <==> Joined(w'.seg, pair)) {
      if pair in touched {
        TouchedPair(price, w, stored, touched, now, pair);
        assert Joined(stored, pair);
      } else {
        UntouchedPair(price, w, stored, touched, now, pair);
      }
    }
  }

  // ---------------------------------------------------------------- every run

  lemma InvStart(price: Pricer, clock: Millis)
    ensures Inv(price, Start(clock))
  {
  }

  lemma InvStep(price: Pricer, w: World, e: Event)
    requires Lawful(price) && Inv(price, w) && Legal(w, e)
    ensures Inv(price, Next(price, w, e))
  {
    match e
    case CostArrives(value, now, victim) =>
      if AcceptsCost(w.seg, value) {
        CostKeepsInv(price, w, value, now, victim);
      } else {
        DayMonotone(w.clock, now);
      }
    case MarketArrives(m, now) =>
      if AcceptsMarket(w.seg, m, now) {
        MarketKeepsInv(price, w, m, now);
      } else {
        DayMonotone(w.clock, now);
      }
    case TimerFires(_) =>
  }

  lemma AcceptanceTimesAside(price: Pricer, w: World, costs: map<ApartmentId, Millis>, nights: map<Date, Millis>)
    requires Materialized(price, w) && StreaksMatch(w)
    ensures Materialized(price, w.(costAcceptedAt := costs, nightAcceptedAt := nights))
    ensures StreaksMatch(w.(costAcceptedAt := costs, nightAcceptedAt := nights))
  {
    var w' := w.(costAcceptedAt := costs, nightAcceptedAt := nights);
    forall pair | Joined(w'.seg, pair) ensures Fresh(price, w', pair) {
      assert Fresh(price, w, pair);
    }
    forall pair ensures PairRecorded(w', pair) && (pair in w'.decisions <==> Joined(w'.seg, pair)) {
      assert PairRecorded(w, pair);
    }
  }

  /** Everything but the watchdog survives storing and repricing. */
  lemma AdvanceKeeps(price: Pricer, w: World, stored: Segment, touched: set<Pair>, now: Millis,
                     costs: map<ApartmentId, Millis>, nights: map<Date, Millis>, w': World)
    requires Lawful(price) && Inv(price, w) && w.clock <= now && Aligned(stored) && Covers(w.seg, stored, touched)
    requires w' == Advance(price, w, stored, touched, now).(costAcceptedAt := costs, nightAcceptedAt := nights)
    ensures Aligned(w'.seg) && Materialized(price, w') && StreaksMatch(w')
  {
    AdvanceAligned(price, w, stored, touched, now);
    AdvanceMaterialized(price, w, stored, touched, now);
    AdvanceStreaksMatch(price, w, stored, touched, now);
    AcceptanceTimesAside(price, Advance(price, w, stored, touched, now), costs, nights);
  }

  lemma CostWatched(price: Pricer, w: World, value: CostAggregate, now: Millis, victim: ApartmentId)
    requires Watched(w) && AcceptsCost(w.seg, value)
    ensures Watched(Next(price, w, CostArrives(value, now, victim)))
  {
  }

  lemma MarketWatched(price: Pricer, w: World, m: MarketPrice, now: Millis)
    requires Watched(w) && AcceptsMarket(w.seg, m, now)
    ensures Watched(Next(price, w, MarketArrives(m, now)))
  {
  }

  lemma CostKeepsInv(price: Pricer, w: World, value: CostAggregate, now: Millis, victim: ApartmentId)
    requires Lawful(price) && Inv(price, w) && Legal(w, CostArrives(value, now, victim)) && AcceptsCost(w.seg, value)
    ensures Inv(price, Next(price, w, CostArrives(value, now, victim)))
  {
    var stored := StoreCost(w.seg, value, now, victim);
    StoreCostAligned(w.seg, value, now, victim);
    StoreCostCovers(w.seg, value, now, victim);
    CostWatched(price, w, value, now, victim);
    AdvanceKeeps(price, w, stored, Row(value.apartmentId, stored.nights), now,
                 w.costAcceptedAt[value.apartmentId := now],
                 w.nightAcceptedAt, Next(price, w, CostArrives(value, now, victim)));
  }

  lemma MarketKeepsInv(price: Pricer, w: World, m: MarketPrice, now: Millis)
    requires Lawful(price) && Inv(price, w) && Legal(w, MarketArrives(m, now)) && AcceptsMarket(w.seg, m, now)
    ensures Inv(price, Next(price, w, MarketArrives(m, now)))
  {
    var stored := StoreMarket(w.seg, m, now);
    StoreMarketAligned(w.seg, m, now);
    StoreMarketCovers(w.seg, m, now);
    MarketWatched(price, w, m, now);
    AdvanceKeeps(price, w, stored, Touched(stored, m), now, w.costAcceptedAt,
                 w.nightAcceptedAt[m.targetDate := now], Next(price, w, MarketArrives(m, now)));
  }

  lemma {:induction false} InvHolds(price: Pricer, clock: Millis, events: seq<Event>)
    requires Lawful(price) && LegalRun(price, clock, events)
    ensures Inv(price, Run(price, clock, events))
  {
    if events == [] {
      InvStart(price, clock);
    } else {
      InvHolds(price, clock, events[..|events| - 1]);
      InvStep(price, Run(price, clock, events[..|events| - 1]), events[|events| - 1]);
    }
  }

  // ---------------------------------------------------------------- the laws of every legal run

  /** Materialized view: although each event reprices one row or one column, the last decision
      emitted for every joined pair was computed from exactly the snapshots stored now. */
  lemma MaterializedView(price: Pricer, clock: Millis, events: seq<Event>, pair: Pair)
    requires Lawful(price) && LegalRun(price, clock, events)
    requires Joined(Run(price, clock, events).seg, pair)
    ensures Fresh(price, Run(price, clock, events), pair)
  {
    InvHolds(price, clock, events);
  }

  /** Breach streak: the stored day is the day of the first decision of the current unbroken run of
      non-competitive decisions since the pair joined; it is absent exactly when the last decision
      was competitive; the breach length of the last decision counts from that day and is never negative. */
  lemma BreachStreak(price: Pricer, clock: Millis, events: seq<Event>, pair: Pair)
    requires Lawful(price) && LegalRun(price, clock, events)
    requires Joined(Run(price, clock, events).seg, pair)
    ensures var w := Run(price, clock, events);
            && pair in w.decisions && w.decisions[pair] != []
            && var last := w.decisions[pair][|w.decisions[pair]| - 1];
            && (pair !in w.seg.breachSince <==> !Breaches(last))
            && (pair in w.seg.breachSince ==>
                  && last.floorBreachDays == DayOf(last.decidedAt) - w.seg.breachSince[pair]
                  && exists k :: StreakStartsAt(w.decisions[pair], k)
                                 && w.seg.breachSince[pair] == DayOf(w.decisions[pair][k].decidedAt))
            && last.floorBreachDays >= 0
  {
    InvHolds(price, clock, events);
    var w := Run(price, clock, events);
    assert PairRecorded(w, pair) && Fresh(price, w, pair);
    StoredStreakIsOfLast(price, clock, events, pair);
  }

  /** The streak stored for a pair is the one its last decision was classified with. */
  lemma {:induction false} StoredStreakIsOfLast(price: Pricer, clock: Millis, events: seq<Event>, pair: Pair)
    requires Lawful(price) && LegalRun(price, clock, events)
    requires Joined(Run(price, clock, events).seg, pair)
    ensures var w := Run(price, clock, events);
            pair in w.view && w.view[pair].outcome.breachSince == Get(w.seg.breachSince, pair)
  {
    if events != [] {
      var front, e := events[..|events| - 1], events[|events| - 1];
      var w := Run(price, clock, front);
      InvHolds(price, clock, front);
      if Joined(w.seg, pair) {
        StoredStreakIsOfLast(price, clock, front, pair);
      }
      StreakOfLastStep(price, w, e, pair);
    }
  }

  lemma StreakAfterRepricing(price: Pricer, w: World, stored: Segment, touched: set<Pair>, now: Millis, pair: Pair)
    requires Covers(w.seg, stored, touched) && Joined(stored, pair)
    requires Joined(w.seg, pair) ==> pair in w.view && w.view[pair].outcome.breachSince == Get(w.seg.breachSince, pair)
    ensures var w' := Advance(price, w, stored, touched, now);
            pair in w'.view && w'.view[pair].outcome.breachSince == Get(w'.seg.breachSince, pair)
  {
    EntriesAfter(price, w, stored, touched, now, pair);
  }

  lemma StreakOfLastStep(price: Pricer, w: World, e: Event, pair: Pair)
    requires Inv(price, w) && Legal(w, e) && Joined(Next(price, w, e).seg, pair)
    requires Joined(w.seg, pair) ==> pair in w.view && w.view[pair].outcome.breachSince == Get(w.seg.breachSince, pair)
    ensures var w' := Next(price, w, e);
            pair in w'.view && w'.view[pair].outcome.breachSince == Get(w'.seg.breachSince, pair)
  {
    match e
    case CostArrives(value, now, victim) =>
      if AcceptsCost(w.seg, value) {
        var stored := StoreCost(w.seg, value, now, victim);
        StoreCostCovers(w.seg, value, now, victim);
        StreakAfterRepricing(price, w, stored, Row(value.apartmentId, stored.nights), now, pair);
      }
    case MarketArrives(m, now) =>
      if AcceptsMarket(w.seg, m, now) {
        var stored := StoreMarket(w.seg, m, now);
        StoreMarketCovers(w.seg, m, now);
        StreakAfterRepricing(price, w, stored, Touched(stored, m), now, pair);
      }
    case TimerFires(_) =>
  }

  /** Alignment: never more than 500 apartments, deadlines for exactly the keys in state, streaks only
      for joined pairs. */
  lemma StatesStayAligned(price: Pricer, clock: Millis, events: seq<Event>)
    requires Lawful(price) && LegalRun(price, clock, events)
    ensures Aligned(Run(price, clock, events).seg) && |Run(price, clock, events).seg.apartments| <= 500
  {
    InvHolds(price, clock, events);
  }

  /** Watchdog: a timer reports exactly the resident keys whose last accepted update came 48 hours
      (172 800 000 milliseconds) before it, and the timer of every resident key has been registered. */
  lemma WatchdogReportsExactly(price: Pricer, clock: Millis, events: seq<Event>, firedAt: Millis)
    requires Lawful(price) && LegalRun(price, clock, events)
    ensures var w := Run(price, clock, events);
            var (stale, staleNights) := Stale(w.seg, firedAt);
            && (forall a :: a in stale <==> a in w.seg.apartments && a in w.costAcceptedAt
                                            && w.costAcceptedAt[a] + 172_800_000 == firedAt)
            && (forall n :: n in staleNights <==> n in w.seg.nights && n in w.nightAcceptedAt
                                                  && w.nightAcceptedAt[n] + 172_800_000 == firedAt)
            && (forall a :: a in w.seg.apartments ==>
                  a in w.costAcceptedAt && w.costAcceptedAt[a] + 172_800_000 in w.seg.timers)
            && (forall n :: n in w.seg.nights ==>
                  n in w.nightAcceptedAt && w.nightAcceptedAt[n] + 172_800_000 in w.seg.timers)
  {
    InvHolds(price, clock, events);
    var w := Run(price, clock, events);
    assert forall a :: a in w.seg.apartments <==> a in w.seg.apartmentDeadlines;
    assert forall n :: n in w.seg.nights <==> n in w.seg.nightDeadlines;
  }

  /** Eviction: happens only at 500 apartments, removes one that no other is older than, never the
      one being written, and leaves exactly 500. */
  lemma EvictionTakesTheOldest(price: Pricer, clock: Millis, events: seq<Event>, value: CostAggregate, now: Millis,
                               victim: ApartmentId)
    requires Lawful(price) && LegalRun(price, clock, events)
    requires var w := Run(price, clock, events);
             Legal(w, CostArrives(value, now, victim)) && AcceptsCost(w.seg, value) && NeedsEviction(w.seg, value)
    ensures var s := Run(price, clock, events).seg;
            var s' := CostStep(price, s, value, now, victim);
            && |s.apartments| == 500 && |s'.apartments| == 500
            && victim in s.apartments && victim != value.apartmentId
            && s'.apartments.Keys == s.apartments.Keys - {victim} + {value.apartmentId}
            && (forall a :: a in s.apartments ==> s.apartments[victim].updatedAt <= s.apartments[a].updatedAt)
            && (forall pair :: pair in s'.breachSince ==> pair.apartment != victim)
  {
    InvHolds(price, clock, events);
    var s := Run(price, clock, events).seg;
    StoreCostAligned(s, value, now, victim);
    DropApartmentAligned(s, victim);
    var dropped := DropApartment(s, victim);
    var s' := CostStep(price, s, value, now, victim);
    assert s'.apartments.Keys == dropped.apartments.Keys + {value.apartmentId};
    assert |s'.apartments| == |s'.apartments.Keys| && |dropped.apartments| == |dropped.apartments.Keys|;
    CostKeepsInv(price, Run(price, clock, events), value, now, victim);
  }

  /** A sub-snapshot that stays is never replaced by an older one. */
  ghost predicate NotOlder(after: Option<MarketSnapshot>, before: Option<MarketSnapshot>) {
    before.Some? ==> after.Some? && before.value.collectedAt <= after.value.collectedAt
  }

  lemma ApartmentTimestampsStep(price: Pricer, w: World, e: Event, a: ApartmentId)
    requires a in w.seg.apartments && a in Next(price, w, e).seg.apartments
    ensures w.seg.apartments[a].updatedAt <= Next(price, w, e).seg.apartments[a].updatedAt
  {
  }

  lemma RunMore(price: Pricer, clock: Millis, events: seq<Event>, more: seq<Event>)
    requires more != []
    ensures Run(price, clock, events + more) ==
            Next(price, Run(price, clock, events + more[..|more| - 1]), more[|more| - 1])
    ensures LegalRun(price, clock, events + more) ==>
              && LegalRun(price, clock, events + more[..|more| - 1])
              && Legal(Run(price, clock, events + more[..|more| - 1]), more[|more| - 1])
  {
    assert (events + more)[..|events + more| - 1] == events + more[..|more| - 1];
  }

  /** The apartment is in state after events and after each of the events that follow. */
  ghost predicate ApartmentStays(price: Pricer, clock: Millis, events: seq<Event>, more: seq<Event>, a: ApartmentId) {
    && a in Run(price, clock, events + more).seg.apartments
    && (more != [] ==> ApartmentStays(price, clock, events, more[..|more| - 1], a))
  }

  /** While an apartment stays in state its timestamp never goes back, over any number of events. */
  lemma {:induction false} ApartmentTimestampsNeverGoBack(price: Pricer, clock: Millis, events: seq<Event>,
                                                          more: seq<Event>, a: ApartmentId)
    requires ApartmentStays(price, clock, events, more, a)
    ensures a in Run(price, clock, events).seg.apartments && a in Run(price, clock, events + more).seg.apartments
    ensures Run(price, clock, events).seg.apartments[a].updatedAt
            <= Run(price, clock, events + more).seg.apartments[a].updatedAt
  {
    if more == [] {
      assert events + more == events;
    } else {
      var front := more[..|more| - 1];
      ApartmentTimestampsNeverGoBack(price, clock, events, front, a);
      RunMore(price, clock, events, more);
      ApartmentTimestampsStep(price, Run(price, clock, events + front), more[|more| - 1], a);
    }
  }

  lemma MergedNightNotOlder(existing: NightSnapshot, m: MarketPrice, platform: Platform)
    requires var previous := if m.platform.None? then existing.blended else Get(existing.channels, m.platform.value);
             SafeToOverwrite(m.snapshot.collectedAt, if previous.Some? then Some(previous.value.collectedAt) else None)
    ensures NotOlder(MergedNight(Some(existing), m).blended, existing.blended)
    ensures NotOlder(Get(MergedNight(Some(existing), m).channels, platform), Get(existing.channels, platform))
  {
  }

  /** A night that stays is changed by nothing but its own accepted market events. */
  lemma NightAfter(price: Pricer, w: World, e: Event, n: Date)
    requires n in w.seg.nights && n in Next(price, w, e).seg.nights
    ensures Next(price, w, e).seg.nights[n] ==
            if e.MarketArrives? && AcceptsMarket(w.seg, e.market, e.now) && n == e.market.targetDate
            then MergedNight(Some(w.seg.nights[n]), e.market) else w.seg.nights[n]
  {
  }

  /** Neither the blended rate nor this channel's rate is older or lost. */
  ghost predicate NightNotOlder(after: NightSnapshot, before: NightSnapshot, platform: Platform) {
    NotOlder(after.blended, before.blended) && NotOlder(Get(after.channels, platform), Get(before.channels, platform))
  }

  lemma NightTimestampsStep(price: Pricer, w: World, e: Event, n: Date, platform: Platform)
    requires n in w.seg.nights && n in Next(price, w, e).seg.nights
    ensures NightNotOlder(Next(price, w, e).seg.nights[n], w.seg.nights[n], platform)
  {
    NightAfter(price, w, e, n);
    if e.MarketArrives? && AcceptsMarket(w.seg, e.market, e.now) && n == e.market.targetDate {
      MergedNightNotOlder(w.seg.nights[n], e.market, platform);
    }
  }

  ghost predicate NightStays(price: Pricer, clock: Millis, events: seq<Event>, more: seq<Event>, n: Date) {
    && n in Run(price, clock, events + more).seg.nights
    && (more != [] ==> NightStays(price, clock, events, more[..|more| - 1], n))
  }

  /** While a night stays in state neither its blended rate nor any channel's rate goes back or is
      lost, over any number of events. */
  lemma {:induction false} NightTimestampsNeverGoBack(price: Pricer, clock: Millis, events: seq<Event>,
                                                      more: seq<Event>, n: Date, platform: Platform)
    requires NightStays(price, clock, events, more, n)
    ensures n in Run(price, clock, events).seg.nights && n in Run(price, clock, events + more).seg.nights
    ensures NightNotOlder(Run(price, clock, events + more).seg.nights[n], Run(price, clock, events).seg.nights[n],
                          platform)
  {
    if more == [] {
      assert events + more == events;
    } else {
      var front := more[..|more| - 1];
      NightTimestampsNeverGoBack(price, clock, events, front, n, platform);
      RunMore(price, clock, events, more);
      NightTimestampsStep(price, Run(price, clock, events + front), more[|more| - 1], n, platform);
    }
  }

  lemma SweptStep(price: Pricer, w: World, e: Event, n: Date)
    requires Legal(w, e) && n < DayOf(w.clock) && n !in w.seg.nights
    ensures n < DayOf(Next(price, w, e).clock) && n !in Next(price, w, e).seg.nights
  {
    if !e.TimerFires? {
      DayMonotone(w.clock, e.now);
    }
  }

  /** A past night that has left the state never comes back, whatever follows. */
  lemma {:induction false} SweptNightsStayGone(price: Pricer, clock: Millis, events: seq<Event>, more: seq<Event>,
                                               n: Date)
    requires LegalRun(price, clock, events + more)
    requires n < DayOf(Run(price, clock, events).clock) && n !in Run(price, clock, events).seg.nights
    ensures n < DayOf(Run(price, clock, events + more).clock) && n !in Run(price, clock, events + more).seg.nights
  {
    if more == [] {
      assert events + more == events;
    } else {
      RunMore(price, clock, events, more);
      SweptNightsStayGone(price, clock, events, more[..|more| - 1], n);
      SweptStep(price, Run(price, clock, events + more[..|more| - 1]), more[|more| - 1], n);
    }
  }
}
