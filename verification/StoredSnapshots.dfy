/** What Stage B's state is a memory of, told from the events alone: for every night and platform the
    last rate it took, and for every apartment the last cost. */
module StoredSnapshots {
  import opened Wrappers
  import opened PricingEngine
  import opened Models
  import opened CrossJoin
  import opened SegmentRuns
  import opened SegmentLaws

  // ---------------------------------------------------------------- rates

  /** The day of an instant, in UTC. */
  ghost predicate IsDayOf(day: Date, now: Millis) {
    day * 86_400_000 <= now < (day + 1) * 86_400_000
  }

  lemma DayOfExactly(now: Millis)
    ensures IsDayOf(DayOf(now), now) && forall day :: IsDayOf(day, now) ==> day == DayOf(now)
  {
  }

  /** A market event is taken unless its night is past, or the last rate taken for the same night and
      platform (no platform: the blended rate) was collected later. */
  ghost predicate TakesRate(before: seq<Event>, m: MarketPrice, now: Millis)
    decreases |before|, 1
  {
    && m.targetDate >= DayOf(now)
    && var last := LastRate(before, m.targetDate, m.platform);
       last.Some? ==> last.value.collectedAt <= m.snapshot.collectedAt
  }

  /** The last rate taken for this night and platform; every event taken forgets the past nights. */
  ghost function LastRate(events: seq<Event>, n: Date, platform: Option<Platform>): Option<MarketSnapshot>
    decreases |events|, 0
  {
    if events == [] then None
    else
      var front, e := events[..|events| - 1], events[|events| - 1];
      if !(e.MarketArrives? && TakesRate(front, e.market, e.now)) then LastRate(front, n, platform)
      else if e.market.targetDate == n && e.market.platform == platform then Some(e.market.snapshot)
      else if n < DayOf(e.now) then None
      else LastRate(front, n, platform)
  }

  /** The rate stored for this night and platform. */
  function RateIn(nights: map<Date, NightSnapshot>, n: Date, platform: Option<Platform>): Option<MarketSnapshot> {
    if n !in nights then None
    else if platform.None? then nights[n].blended
    else Get(nights[n].channels, platform.value)
  }

  /** These nights remember exactly the last rates. */
  ghost predicate RemembersRates(nights: map<Date, NightSnapshot>, events: seq<Event>) {
    && (forall n, platform :: RateIn(nights, n, platform) == LastRate(events, n, platform))
    && (forall n :: n in nights ==> exists platform :: LastRate(events, n, platform).Some?)
  }

  lemma TakenAlike(s: Segment, events: seq<Event>, m: MarketPrice, now: Millis)
    requires RemembersRates(s.nights, events)
    ensures AcceptsMarket(s, m, now) <==> TakesRate(events, m, now)
  {
    assert RateIn(s.nights, m.targetDate, m.platform) == LastRate(events, m.targetDate, m.platform);
  }

  lemma RateAfterStore(s: Segment, m: MarketPrice, now: Millis, n: Date, platform: Option<Platform>)
    requires AcceptsMarket(s, m, now)
    ensures RateIn(StoreMarket(s, m, now).nights, n, platform) ==
            if m.targetDate == n && m.platform == platform then Some(m.snapshot)
            else if n < DayOf(now) then None
            else RateIn(s.nights, n, platform)
  {
  }

  lemma NightsAfterStore(s: Segment, m: MarketPrice, now: Millis, n: Date)
    requires AcceptsMarket(s, m, now)
    ensures n in StoreMarket(s, m, now).nights <==> n == m.targetDate || (n in s.nights && n >= DayOf(now))
  {
  }

  lemma StoreRemembers(s: Segment, events: seq<Event>, e: Event)
    requires RemembersRates(s.nights, events) && e.MarketArrives? && AcceptsMarket(s, e.market, e.now)
    ensures RemembersRates(StoreMarket(s, e.market, e.now).nights, events + [e])
  {
    var after := events + [e];
    assert after[..|after| - 1] == events;
    TakenAlike(s, events, e.market, e.now);
    var nights := StoreMarket(s, e.market, e.now).nights;
    forall n, platform ensures RateIn(nights, n, platform) == LastRate(after, n, platform) {
      RateAfterStore(s, e.market, e.now, n, platform);
      assert RateIn(s.nights, n, platform) == LastRate(events, n, platform);
    }
    forall n | n in nights ensures exists platform :: LastRate(after, n, platform).Some? {
      NightsAfterStore(s, e.market, e.now, n);
      if n == e.market.targetDate {
        assert LastRate(after, n, e.market.platform).Some?;
      } else {
        var platform :| LastRate(events, n, platform).Some?;
        assert LastRate(after, n, platform).Some?;
      }
    }
  }

  lemma OthersRemember(nights: map<Date, NightSnapshot>, events: seq<Event>, e: Event)
    requires RemembersRates(nights, events) && !(e.MarketArrives? && TakesRate(events, e.market, e.now))
    ensures RemembersRates(nights, events + [e])
  {
    var after := events + [e];
    assert after[..|after| - 1] == events;
    forall n, platform ensures RateIn(nights, n, platform) == LastRate(after, n, platform) {
      assert LastRate(after, n, platform) == LastRate(events, n, platform);
    }
    forall n | n in nights ensures exists platform :: LastRate(after, n, platform).Some? {
      var platform :| LastRate(events, n, platform).Some?;
      assert LastRate(after, n, platform) == LastRate(events, n, platform);
    }
  }

  lemma AdvanceKeepsNights(price: Pricer, w: World, stored: Segment, touched: set<Pair>, now: Millis)
    requires AllJoined(stored, touched)
    ensures Advance(price, w, stored, touched, now).seg.nights == stored.nights
  {
  }

  lemma CostKeepsNights(price: Pricer, w: World, e: Event)
    requires e.CostArrives?
    ensures Next(price, w, e).seg.nights == w.seg.nights
  {
    if AcceptsCost(w.seg, e.value) {
      var stored := StoreCost(w.seg, e.value, e.now, e.victim);
      assert stored.nights == w.seg.nights;
      AdvanceKeepsNights(price, w, stored, Row(e.value.apartmentId, stored.nights), e.now);
    }
  }

  lemma NightsOfMarket(price: Pricer, w: World, e: Event)
    requires e.MarketArrives?
    ensures Next(price, w, e).seg.nights ==
            if AcceptsMarket(w.seg, e.market, e.now) then StoreMarket(w.seg, e.market, e.now).nights else w.seg.nights
  {
    if AcceptsMarket(w.seg, e.market, e.now) {
      var stored := StoreMarket(w.seg, e.market, e.now);
      AdvanceKeepsNights(price, w, stored, Touched(stored, e.market), e.now);
    }
  }

  lemma NextRemembers(price: Pricer, w: World, events: seq<Event>, e: Event)
    requires RemembersRates(w.seg.nights, events)
    ensures RemembersRates(Next(price, w, e).seg.nights, events + [e])
  {
    match e {
      case CostArrives(_, _, _) =>
        CostKeepsNights(price, w, e);
        OthersRemember(w.seg.nights, events, e);
      case TimerFires(_) =>
        OthersRemember(w.seg.nights, events, e);
      case MarketArrives(m, now) =>
        NightsOfMarket(price, w, e);
        TakenAlike(w.seg, events, m, now);
        if AcceptsMarket(w.seg, m, now) {
          StoreRemembers(w.seg, events, e);
        } else {
          OthersRemember(w.seg.nights, events, e);
        }
    }
  }

  /** After any events, a night in state shows as blended rate that of the last blended event it took
      since it entered, and as rate of a platform that of the last event of that platform it took; absent
      where there was none. A night is in state exactly while some rate of it is remembered. */
  lemma {:induction false} StoredRatesAreTheLast(price: Pricer, clock: Millis, events: seq<Event>)
    ensures RemembersRates(Run(price, clock, events).seg.nights, events)
  {
    if events != [] {
      var front, e := events[..|events| - 1], events[|events| - 1];
      assert front + [e] == events;
      StoredRatesAreTheLast(price, clock, front);
      NextRemembers(price, Run(price, clock, front), front, e);
    }
  }

  // ---------------------------------------------------------------- costs

  /** A cost event is taken unless the last cost taken for the apartment was updated later. */
  ghost predicate TakesCost(price: Pricer, clock: Millis, before: seq<Event>, value: CostAggregate)
    decreases |before|, 1
  {
    var last := LastCost(price, clock, before, value.apartmentId);
    last.Some? ==> last.value.updatedAt <= value.updatedAt
  }

  /** The last cost taken for the apartment; a new apartment that meets 500 others makes one of them forgotten. */
  ghost function LastCost(price: Pricer, clock: Millis, events: seq<Event>, a: ApartmentId): Option<CostAggregate>
    decreases |events|, 0
  {
    if events == [] then None
    else
      var front, e := events[..|events| - 1], events[|events| - 1];
      if !(e.CostArrives? && TakesCost(price, clock, front, e.value)) then LastCost(price, clock, front, a)
      else if e.value.apartmentId == a then Some(e.value)
      else if a == e.victim && LastCost(price, clock, front, e.value.apartmentId).None?
              && |Run(price, clock, front).seg.apartments| >= 500 then None
      else LastCost(price, clock, front, a)
  }

  lemma ApartmentsOfNext(price: Pricer, w: World, e: Event)
    ensures Next(price, w, e).seg.apartments ==
            if e.CostArrives? && AcceptsCost(w.seg, e.value) then StoreCost(w.seg, e.value, e.now, e.victim).apartments
            else w.seg.apartments
  {
  }

  lemma CostsAfterStore(s: Segment, value: CostAggregate, now: Millis, victim: ApartmentId, a: ApartmentId)
    requires |s.apartments| <= 500
    ensures Get(StoreCost(s, value, now, victim).apartments, a) ==
            if value.apartmentId == a then Some(value)
            else if a == victim && value.apartmentId !in s.apartments && |s.apartments| >= 500 then None
            else Get(s.apartments, a)
  {
  }

  /** After any legal run, the stored cost of an apartment is that of the last event it took since it
      entered, and an apartment is in state exactly while one is remembered. */
  lemma {:induction false} StoredCostIsTheLast(price: Pricer, clock: Millis, events: seq<Event>, a: ApartmentId)
    requires Lawful(price) && LegalRun(price, clock, events)
    ensures Get(Run(price, clock, events).seg.apartments, a) == LastCost(price, clock, events, a)
    decreases |events|
  {
    if events != [] {
      var front, e := events[..|events| - 1], events[|events| - 1];
      var w := Run(price, clock, front);
      StoredCostIsTheLast(price, clock, front, a);
      StatesStayAligned(price, clock, front);
      ApartmentsOfNext(price, w, e);
      if e.CostArrives? {
        StoredCostIsTheLast(price, clock, front, e.value.apartmentId);
        CostsAfterStore(w.seg, e.value, e.now, e.victim, a);
      }
    }
  }
}
