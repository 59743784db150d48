/** Interleaving independence: one cost event per apartment and one blended event per future night,
    in any order, emit every pair exactly once and end in the same state. */
module Interleaving {
  import opened Wrappers
  import Listings
  import opened Models
  import opened CrossJoin
  import opened SegmentRuns

  function SeenCosts(events: seq<Event>): set<ApartmentId> {
    if events == [] then {}
    else
      var last := events[|events| - 1];
      SeenCosts(events[..|events| - 1]) + if last.CostArrives? then {last.value.apartmentId} else {}
  }

  function SeenNights(events: seq<Event>): set<Date> {
    if events == [] then {}
    else
      var last := events[|events| - 1];
      SeenNights(events[..|events| - 1]) + if last.MarketArrives? then {last.market.targetDate} else {}
  }

  /** The event carries the planned cost of an apartment, or the planned blended rate of a night that
      has not passed, or is a timer. */
  ghost predicate Planned(e: Event, costs: map<ApartmentId, CostAggregate>, markets: map<Date, MarketPrice>) {
    match e
    case CostArrives(value, _, _) => value.apartmentId in costs && costs[value.apartmentId] == value
    case MarketArrives(m, now) =>
      && m.targetDate in markets && markets[m.targetDate] == m && m.platform.None?
      && (forall n :: n in markets ==> n >= DayOf(now))
    case TimerFires(_) => true
  }

  /** No planned event has occurred twice. */
  ghost predicate AtMostOnce(events: seq<Event>, costs: map<ApartmentId, CostAggregate>,
                             markets: map<Date, MarketPrice>)
  {
    events != [] ==>
      var front, last := events[..|events| - 1], events[|events| - 1];
      && AtMostOnce(front, costs, markets)
      && Planned(last, costs, markets)
      && (last.CostArrives? ==> last.value.apartmentId !in SeenCosts(front))
      && (last.MarketArrives? ==> last.market.targetDate !in SeenNights(front))
  }

  function Cross(apartments: set<ApartmentId>, nights: set<Date>): set<Pair> {
    set a, n | a in apartments && n in nights :: Pair(a, n)
  }

  function BlendedNights(markets: map<Date, MarketPrice>): map<Date, NightSnapshot> {
    map n | n in markets :: NightSnapshot(Some(markets[n].snapshot), map[])
  }

  function Only<K, V>(m: map<K, V>, keys: set<K>): map<K, V> {
    map k | k in m && k in keys :: m[k]
  }

  /** The stored costs and nights, and the emitted pairs, after some of the planned events. */
  ghost predicate Holds(storedCosts: map<ApartmentId, CostAggregate>, storedNights: map<Date, NightSnapshot>,
                        emitted: multiset<Pair>,
                        costs: map<ApartmentId, CostAggregate>, plan: map<Date, NightSnapshot>,
                        apartments: set<ApartmentId>, nights: set<Date>) {
    && apartments <= costs.Keys && nights <= plan.Keys
    && storedCosts == Only(costs, apartments)
    && storedNights == Only(plan, nights)
    && emitted == multiset(Cross(apartments, nights))
  }

  ghost predicate Reached(w: World, costs: map<ApartmentId, CostAggregate>, plan: map<Date, NightSnapshot>,
                          apartments: set<ApartmentId>, nights: set<Date>) {
    Holds(w.seg.apartments, w.seg.nights, w.emitted, costs, plan, apartments, nights)
  }

  lemma MultisetOfDisjoint<T>(a: set<T>, b: set<T>)
    requires a !! b
    ensures multiset(a + b) == multiset(a) + multiset(b)
  {
  }

  /** An accepted cost without eviction: one more apartment, and its row is emitted. */
  lemma CostAdds(price: Pricer, w: World, value: CostAggregate, now: Millis, victim: ApartmentId)
    requires value.apartmentId !in w.seg.apartments && |w.seg.apartments| < MAX_ENTRIES
    ensures var w' := Next(price, w, CostArrives(value, now, victim));
            && w'.seg.apartments == w.seg.apartments[value.apartmentId := value]
            && w'.seg.nights == w.seg.nights
            && w'.emitted == w.emitted + multiset(Row(value.apartmentId, w.seg.nights))
  {
    assert !NeedsEviction(w.seg, value);
  }

  /** A blended rate for a new night, no night being past: one more night, and its column is emitted. */
  lemma MarketAdds(price: Pricer, w: World, m: MarketPrice, now: Millis)
    requires m.targetDate !in w.seg.nights && m.platform.None? && m.targetDate >= DayOf(now)
    requires ExpiredNights(w.seg.nights, DayOf(now)) == {}
    ensures var w' := Next(price, w, MarketArrives(m, now));
            && w'.seg.apartments == w.seg.apartments
            && w'.seg.nights == w.seg.nights[m.targetDate := NightSnapshot(Some(m.snapshot), map[])]
            && w'.emitted == w.emitted + multiset(Column(m.targetDate, w.seg.apartments))
  {
    assert w.seg.nights - {} == w.seg.nights;
  }

  lemma HoldsWithCost(storedCosts: map<ApartmentId, CostAggregate>, storedNights: map<Date, NightSnapshot>,
                      emitted: multiset<Pair>,
                      costs: map<ApartmentId, CostAggregate>, plan: map<Date, NightSnapshot>,
                      apartments: set<ApartmentId>, nights: set<Date>, a: ApartmentId)
    requires Holds(storedCosts, storedNights, emitted, costs, plan, apartments, nights)
    requires forall n :: n in plan ==> IsKnown(plan[n])
    requires a in costs && a !in apartments
    ensures Holds(storedCosts[a := costs[a]], storedNights, emitted + multiset(Row(a, storedNights)),
                  costs, plan, apartments + {a}, nights)
  {
    OnlyGrows(costs, apartments, a);
    var row := Row(a, storedNights);
    forall pair ensures pair in row <==> pair.apartment == a && pair.night in nights {
      assert pair == Pair(pair.apartment, pair.night);
    }
    RowIsNew(apartments, nights, a, row);
  }

  lemma HoldsWithNight(storedCosts: map<ApartmentId, CostAggregate>, storedNights: map<Date, NightSnapshot>,
                       emitted: multiset<Pair>,
                       costs: map<ApartmentId, CostAggregate>, plan: map<Date, NightSnapshot>,
                       apartments: set<ApartmentId>, nights: set<Date>, n: Date)
    requires Holds(storedCosts, storedNights, emitted, costs, plan, apartments, nights)
    requires n in plan && n !in nights
    ensures Holds(storedCosts, storedNights[n := plan[n]], emitted + multiset(Column(n, storedCosts)),
                  costs, plan, apartments, nights + {n})
  {
    OnlyGrows(plan, nights, n);
    var column := Column(n, storedCosts);
    forall pair ensures pair in column <==> pair.apartment in apartments && pair.night == n {
      assert pair == Pair(pair.apartment, pair.night);
    }
    ColumnIsNew(apartments, nights, n, column);
  }

  lemma RoomIn(storedCosts: map<ApartmentId, CostAggregate>, costs: map<ApartmentId, CostAggregate>,
               apartments: set<ApartmentId>, a: ApartmentId)
    requires storedCosts == Only(costs, apartments) && apartments <= costs.Keys && a in costs && a !in apartments
    ensures a !in storedCosts && |storedCosts| < |costs|
  {
    assert storedCosts.Keys == apartments && |storedCosts| == |storedCosts.Keys|;
    RoomForOneMore(apartments, costs, a);
  }

  lemma StepReaches(price: Pricer, w: World, e: Event, costs: map<ApartmentId, CostAggregate>,
                    markets: map<Date, MarketPrice>,
                    apartments: set<ApartmentId>, nights: set<Date>)
    requires Reached(w, costs, BlendedNights(markets), apartments, nights) && |costs| <= MAX_ENTRIES
    requires Planned(e, costs, markets)
    requires e.CostArrives? ==> e.value.apartmentId !in apartments
    requires e.MarketArrives? ==> e.market.targetDate !in nights
    ensures Reached(Next(price, w, e), costs, BlendedNights(markets),
                    apartments + if e.CostArrives? then {e.value.apartmentId} else {},
                    nights + if e.MarketArrives? then {e.market.targetDate} else {})
  {
    var plan := BlendedNights(markets);
    match e
    case CostArrives(value, now, victim) =>
      RoomIn(w.seg.apartments, costs, apartments, value.apartmentId);
      CostAdds(price, w, value, now, victim);
      HoldsWithCost(w.seg.apartments, w.seg.nights, w.emitted, costs, plan, apartments, nights, value.apartmentId);
    case MarketArrives(m, now) =>
      NothingExpired(w.seg.nights, markets, nights, now);
      MarketAdds(price, w, m, now);
      HoldsWithNight(w.seg.apartments, w.seg.nights, w.emitted, costs, plan, apartments, nights, m.targetDate);
    case TimerFires(_) =>
      assert apartments + {} == apartments && nights + {} == nights;
  }

  lemma NothingExpired(storedNights: map<Date, NightSnapshot>, markets: map<Date, MarketPrice>, nights: set<Date>,
                       now: Millis)
    requires storedNights == Only(BlendedNights(markets), nights) && forall n :: n in markets ==> n >= DayOf(now)
    ensures ExpiredNights(storedNights, DayOf(now)) == {}
    ensures forall n :: n in storedNights ==> n in nights
  {
  }

  lemma OnlyGrows<K, V>(m: map<K, V>, keys: set<K>, k: K)
    requires k in m
    ensures Only(m, keys + {k}) == Only(m, keys)[k := m[k]]
  {
  }

  lemma RoomForOneMore<K, V>(keys: set<K>, m: map<K, V>, k: K)
    requires keys <= m.Keys && k in m && k !in keys
    ensures |keys| + 1 <= |m|
  {
    assert |keys + {k}| <= |m.Keys| by { Listings.SubsetSize(keys + {k}, m.Keys); }
    assert |m.Keys| == |m|;
  }

  lemma RowIsNew(apartments: set<ApartmentId>, nights: set<Date>, a: ApartmentId, row: set<Pair>)
    requires a !in apartments && forall pair :: pair in row <==> pair.apartment == a && pair.night in nights
    ensures multiset(Cross(apartments + {a}, nights)) == multiset(Cross(apartments, nights)) + multiset(row)
  {
    CrossMembers(apartments, nights);
    CrossMembers(apartments + {a}, nights);
    assert Cross(apartments + {a}, nights) == Cross(apartments, nights) + row;
    MultisetOfDisjoint(Cross(apartments, nights), row);
  }

  lemma ColumnIsNew(apartments: set<ApartmentId>, nights: set<Date>, n: Date, column: set<Pair>)
    requires n !in nights && forall pair :: pair in column <==> pair.apartment in apartments && pair.night == n
    ensures multiset(Cross(apartments, nights + {n})) == multiset(Cross(apartments, nights)) + multiset(column)
  {
    CrossMembers(apartments, nights);
    CrossMembers(apartments, nights + {n});
    assert Cross(apartments, nights + {n}) == Cross(apartments, nights) + column;
    MultisetOfDisjoint(Cross(apartments, nights), column);
  }

  lemma CrossMembers(apartments: set<ApartmentId>, nights: set<Date>)
    ensures forall pair :: pair in Cross(apartments, nights) <==> pair.apartment in apartments && pair.night in nights
  {
    forall pair ensures pair in Cross(apartments, nights) <==> pair.apartment in apartments && pair.night in nights {
      assert pair == Pair(pair.apartment, pair.night);
    }
  }

  function RowOf(a: ApartmentId, nights: set<Date>): set<Pair> {
    set n | n in nights :: Pair(a, n)
  }

  lemma RowMembers(a: ApartmentId, nights: set<Date>)
    ensures forall pair :: pair in RowOf(a, nights) <==> pair.apartment == a && pair.night in nights
  {
    forall pair ensures pair in RowOf(a, nights) <==> pair.apartment == a && pair.night in nights {
      assert pair == Pair(pair.apartment, pair.night);
    }
  }

  lemma {:induction false} RowSize(a: ApartmentId, nights: set<Date>)
    ensures |RowOf(a, nights)| == |nights|
    decreases nights
  {
    if nights == {} {
      assert RowOf(a, nights) == {};
    } else {
      var n := Listings.Member(nights);
      RowSize(a, nights - {n});
      assert RowOf(a, nights) == RowOf(a, nights - {n}) + {Pair(a, n)};
    }
  }

  lemma OneMoreRow(rest: set<ApartmentId>, nights: set<Date>, a: ApartmentId)
    requires a !in rest
    ensures |Cross(rest + {a}, nights)| == |Cross(rest, nights)| + |nights|
  {
    RowMembers(a, nights);
    RowSize(a, nights);
    RowIsNew(rest, nights, a, RowOf(a, nights));
    assert |multiset(Cross(rest + {a}, nights))| == |multiset(Cross(rest, nights))| + |multiset(RowOf(a, nights))|;
  }

  lemma OneMoreTimes(m: nat, n: nat)
    ensures (m + 1) * n == m * n + n
  {
  }

  lemma {:induction false} CrossSize(apartments: set<ApartmentId>, nights: set<Date>)
    ensures |Cross(apartments, nights)| == |apartments| * |nights|
    decreases apartments
  {
    if apartments == {} {
      assert Cross(apartments, nights) == {};
    } else {
      var a := Listings.Member(apartments);
      var rest := apartments - {a};
      CrossSize(rest, nights);
      OneMoreRow(rest, nights, a);
      assert rest + {a} == apartments;
      OneMoreTimes(|rest|, |nights|);
    }
  }

  lemma {:induction false} EveryPrefixReaches(price: Pricer, clock: Millis, events: seq<Event>,
                                              costs: map<ApartmentId, CostAggregate>, markets: map<Date, MarketPrice>)
    requires AtMostOnce(events, costs, markets) && |costs| <= MAX_ENTRIES
    ensures Reached(Run(price, clock, events), costs, BlendedNights(markets), SeenCosts(events), SeenNights(events))
  {
    if events == [] {
      assert Cross({}, {}) == {};
    } else {
      var front, last := events[..|events| - 1], events[|events| - 1];
      EveryPrefixReaches(price, clock, front, costs, markets);
      StepReaches(price, Run(price, clock, front), last, costs, markets, SeenCosts(front), SeenNights(front));
    }
  }

  lemma AllReached(storedCosts: map<ApartmentId, CostAggregate>, storedNights: map<Date, NightSnapshot>,
                   emitted: multiset<Pair>,
                   costs: map<ApartmentId, CostAggregate>, plan: map<Date, NightSnapshot>)
    requires Holds(storedCosts, storedNights, emitted, costs, plan, costs.Keys, plan.Keys)
    ensures storedCosts == costs && storedNights == plan && |emitted| == |costs| * |plan|
    ensures forall a, n :: a in costs && n in plan ==> emitted[Pair(a, n)] == 1
  {
    CrossSize(costs.Keys, plan.Keys);
    CrossMembers(costs.Keys, plan.Keys);
    assert |costs.Keys| == |costs| && |plan.Keys| == |plan|;
    assert |emitted| == |Cross(costs.Keys, plan.Keys)|;
    forall a, n | a in costs && n in plan ensures emitted[Pair(a, n)] == 1 {
      assert Pair(a, n) in Cross(costs.Keys, plan.Keys);
    }
  }

  /** For M <= 500 apartments and K future nights, every interleaving of the M cost events and the K
      blended events (timers anywhere) emits exactly M * K decisions, one for each pair, and ends in
      the same apartments and nights. */
  lemma EveryInterleavingAgrees(price: Pricer, clock: Millis, events: seq<Event>,
                                costs: map<ApartmentId, CostAggregate>, markets: map<Date, MarketPrice>)
    requires AtMostOnce(events, costs, markets) && |costs| <= MAX_ENTRIES
    requires SeenCosts(events) == costs.Keys && SeenNights(events) == markets.Keys
    ensures var w := Run(price, clock, events);
            && w.seg.apartments == costs
            && w.seg.nights == BlendedNights(markets)
            && |w.emitted| == |costs| * |markets|
            && forall a, n :: a in costs && n in markets ==> w.emitted[Pair(a, n)] == 1
  {
    var plan := BlendedNights(markets);
    assert plan.Keys == markets.Keys && |plan| == |plan.Keys| && |markets| == |markets.Keys|;
    EveryPrefixReaches(price, clock, events, costs, markets);
    var w := Run(price, clock, events);
    AllReached(w.seg.apartments, w.seg.nights, w.emitted, costs, plan);
  }
}
