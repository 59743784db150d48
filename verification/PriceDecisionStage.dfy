/** The Stage B operator: the steps of CrossJoin performed in place on the map states. */
module PriceDecisionStage {
  import opened Wrappers
  import opened Listings
  import opened Models
  import opened CrossJoin

  // ---------------------------------------------------------------- the operator

  /** out yields exactly the decisions of a batch, each once, in some order. */
  ghost predicate Yields(out: seq<PriceDecision>, batch: map<Pair, Outcome>) {
    && |out| == |batch|
    && (forall i :: 0 <= i < |out| ==>
          PairOf(out[i]) in batch
          && out[i] == batch[PairOf(out[i])].decision)
    && (forall i, j :: 0 <= i < j < |out| ==>
          PairOf(out[i]) != PairOf(out[j]))
  }

  lemma RepriceOneMore(price: Pricer, s: Segment, done: set<Pair>, pair: Pair, now: Millis)
    requires AllJoined(s, done) && Joined(s, pair) && pair !in done
    ensures AllJoined(s, done + {pair})
    ensures Reprice(price, s, done + {pair}, now) ==
            Reprice(price, s, done, now)[pair := price(s.apartments[pair.apartment], Known(s.nights[pair.night]),
                                                       pair.night, now,
                                                 Get(s.breachSince, pair))]
  {
  }

  lemma YieldOneMore(out: seq<PriceDecision>, batch: map<Pair, Outcome>, pair: Pair, o: Outcome)
    requires Yields(out, batch) && pair !in batch && PairOf(o.decision) == pair
    ensures Yields(out + [o.decision], batch[pair := o])
  {
    forall i | 0 <= i < |out| ensures PairOf(out[i]) != pair {
      assert PairOf(out[i]) in batch;
    }
  }

  /** Writing one streak back, as a put or a removal. */
  function WriteStreak(streaks: map<Pair, Date>, pair: Pair, since: Option<Date>): map<Pair, Date> {
    if since.None? then streaks - {pair} else streaks[pair := since.value]
  }

  lemma StreaksOneMore(streaks: map<Pair, Date>, batch: map<Pair, Outcome>, pair: Pair, o: Outcome)
    requires pair !in batch
    ensures UpdateStreaks(streaks, batch[pair := o]) == WriteStreak(UpdateStreaks(streaks, batch), pair, o.breachSince)
    ensures Get(UpdateStreaks(streaks, batch), pair) == Get(streaks, pair)
  {
  }

  /** The loop of a fan-out when todo is left: what it has yielded and the streaks it left. */
  ghost predicate FannedOut(price: Pricer, s: Segment, touched: set<Pair>, todo: set<Pair>, now: Millis,
                            out: seq<PriceDecision>, streaks: map<Pair, Date>) {
    && todo <= touched
    && AllJoined(s, touched - todo)
    && streaks == UpdateStreaks(s.breachSince, Reprice(price, s, touched - todo, now))
    && Yields(out, Reprice(price, s, touched - todo, now))
  }

  lemma FanOutBegins(price: Pricer, s: Segment, touched: set<Pair>, now: Millis)
    ensures FannedOut(price, s, touched, touched, now, [], s.breachSince)
  {
    WalkBegins(touched);
    assert UpdateStreaks(s.breachSince, map[]) == s.breachSince;
  }

  lemma FanOutEnds(price: Pricer, s: Segment, touched: set<Pair>, now: Millis, out: seq<PriceDecision>,
                   streaks: map<Pair, Date>)
    requires FannedOut(price, s, touched, {}, now, out, streaks)
    ensures AllJoined(s, touched)
    ensures streaks == UpdateStreaks(s.breachSince, Reprice(price, s, touched, now))
            && Yields(out, Reprice(price, s, touched, now))
  {
    WalkBegins(touched);
  }

  lemma FanOutOneMore(price: Pricer, s: Segment, touched: set<Pair>, todo: set<Pair>, now: Millis,
                      out: seq<PriceDecision>, streaks: map<Pair, Date>, pair: Pair, o: Outcome)
    requires FannedOut(price, s, touched, todo, now, out, streaks) && pair in todo && Joined(s, pair)
    requires Lawful(price) && s.apartments[pair.apartment].apartmentId == pair.apartment
    requires o == price(s.apartments[pair.apartment], Known(s.nights[pair.night]), pair.night, now, Get(streaks, pair))
    ensures FannedOut(price, s, touched, todo - {pair}, now, out + [o.decision],
                      WriteStreak(streaks, pair, o.breachSince))
  {
    WalkStep(touched, todo, pair);
    var done := touched - todo;
    var batch := Reprice(price, s, done, now);
    StreaksOneMore(s.breachSince, batch, pair, o);
    RepriceOneMore(price, s, done, pair, now);
    YieldOneMore(out, batch, pair, o);
  }

  method OldestKeyByUpdatedAt(entries: map<ApartmentId, CostAggregate>) returns (oldest: ApartmentId)
    requires entries != map[]
    ensures IsOldest(oldest, entries)
  {
    oldest :| oldest in entries;
    var todo := entries.Keys - {oldest};
    while todo != {}
      invariant oldest in entries && todo <= entries.Keys
      invariant forall a :: a in entries && a !in todo ==> entries[oldest].updatedAt <= entries[a].updatedAt
      decreases todo
    {
      var a :| a in todo;
      if entries[a].updatedAt < entries[oldest].updatedAt {
        oldest := a;
      }
      todo := todo - {a};
    }
  }

  class PriceDecisionFunction {
    const price: Pricer
    var apartments: map<ApartmentId, CostAggregate>
    var nights: map<Date, NightSnapshot>
    var apartmentDeadlines: map<ApartmentId, Millis>
    var nightDeadlines: map<Date, Millis>
    var floorBreachSince: map<Pair, Date>
    var timers: set<Millis>

    function State(): Segment
      reads this
    {
      Segment(apartments, nights, apartmentDeadlines, nightDeadlines, floorBreachSince, timers)
    }

    /** Every stored aggregate sits under its own apartment's key. */
    ghost predicate Valid()
      reads this
    {
      Lawful(price) && forall a :: a in apartments ==> apartments[a].apartmentId == a
    }

    constructor (price: Pricer)
      requires Lawful(price)
      ensures this.price == price && State() == EMPTY && Valid()
    {
      this.price := price;
      apartments, nights := map[], map[];
      apartmentDeadlines, nightDeadlines := map[], map[];
      floorBreachSince, timers := map[], {};
    }

    /** Prices one of the pairs left and writes its streak back. */
    method PriceNext(ghost start: Segment, ghost touched: set<Pair>, todo: set<Pair>, out: seq<PriceDecision>,
                     now: Millis)
      returns (todo': set<Pair>, out': seq<PriceDecision>)
      requires todo != {} && AllJoined(start, touched) && Valid()
      requires apartments == start.apartments && nights == start.nights
      requires FannedOut(price, start, touched, todo, now, out, floorBreachSince)
      modifies `floorBreachSince
      ensures todo' < todo
      ensures FannedOut(price, start, touched, todo', now, out', floorBreachSince)
    {
      var pair :| pair in todo;
      var o := price(apartments[pair.apartment], Known(nights[pair.night]), pair.night, now,
                     Get(floorBreachSince, pair));
      FanOutOneMore(price, start, touched, todo, now, out, floorBreachSince, pair, o);
      floorBreachSince := WriteStreak(floorBreachSince, pair, o.breachSince);
      todo', out' := todo - {pair}, out + [o.decision];
    }

    /** Prices the touched pairs one at a time, writing each streak back as it goes. */
    method FanOut(touched: set<Pair>, now: Millis) returns (out: seq<PriceDecision>)
      requires Valid() && AllJoined(State(), touched)
      modifies `floorBreachSince
      ensures floorBreachSince == UpdateStreaks(old(floorBreachSince), Reprice(price, old(State()), touched, now))
      ensures Yields(out, Reprice(price, old(State()), touched, now))
    {
      out := [];
      var todo := touched;
      ghost var start := State();
      FanOutBegins(price, start, touched, now);
      while todo != {}
        invariant FannedOut(price, start, touched, todo, now, out, floorBreachSince)
        decreases todo
      {
        todo, out := PriceNext(start, touched, todo, out, now);
      }
      FanOutEnds(price, start, touched, now, out, floorBreachSince);
    }

    /** Removes the streaks of these apartments and of these nights, key by key. */
    method ForgetStreaks(apartmentIds: set<ApartmentId>, dates: set<Date>)
      modifies `floorBreachSince
      ensures floorBreachSince == StreaksWithout(old(floorBreachSince), apartmentIds, dates)
    {
      var todo := floorBreachSince.Keys;
      while todo != {}
        invariant forall pair :: pair in todo ==> pair in floorBreachSince
        invariant forall pair :: pair in floorBreachSince ==>
                    pair in old(floorBreachSince) && floorBreachSince[pair] == old(floorBreachSince)[pair]
        invariant forall pair :: pair in old(floorBreachSince) && pair !in todo ==>
                    (pair in floorBreachSince <==> pair.apartment !in apartmentIds && pair.night !in dates)
        decreases todo
      {
        var pair :| pair in todo;
        if pair.apartment in apartmentIds || pair.night in dates {
          floorBreachSince := floorBreachSince - {pair};
        }
        todo := todo - {pair};
      }
    }

    /** Cost side: stores one apartment's aggregate, evicting the oldest apartment when the segment is
        full, then reprices every known night. */
    method ProcessElement1(value: CostAggregate, now: Millis)
      returns (out: seq<PriceDecision>, ghost victim: ApartmentId)
      requires Valid()
      modifies this
      ensures Valid()
      ensures MayEvict(old(State()), value, victim)
      ensures State() == CostStep(price, old(State()), value, now, victim)
      ensures Yields(out, CostBatch(price, old(State()), value, now, victim))
    {
      var id := value.apartmentId;
      victim := id;
      if !SafeToOverwrite(value.updatedAt, if id in apartments then Some(apartments[id].updatedAt) else None) {
        return [], victim;
      }
      if OverCapacity(|apartments| + if id in apartments then 0 else 1) {
        var oldest := OldestKeyByUpdatedAt(apartments);
        victim := oldest;
        apartments := apartments - {oldest};
        apartmentDeadlines := apartmentDeadlines - {oldest};
        ForgetStreaks({oldest}, {});
      }
      apartments := apartments[id := value];
      apartmentDeadlines := apartmentDeadlines[id := NextDeadline(now)];
      timers := timers + {NextDeadline(now)};
      assert State() == StoreCost(old(State()), value, now, victim);
      out := FanOut(Row(id, nights), now);
    }

    /** Market side: sweeps past nights, stores one night's blended or channel rate, then reprices
        every known apartment once the blended rate is known. */
    method ProcessElement2(m: MarketPrice, now: Millis) returns (out: seq<PriceDecision>)
      requires Valid()
      modifies this
      ensures Valid()
      ensures State() == MarketStep(price, old(State()), m, now)
      ensures Yields(out, MarketBatch(price, old(State()), m, now))
    {
      if !AcceptsMarket(State(), m, now) {
        return [];
      }
      ghost var before := State();
      StoreNight(m, now);
      if !IsKnown(nights[m.targetDate]) {
        UnknownNightStep(price, before, m, now);
        return [];
      }
      ghost var stored := State();
      KnownNightStep(price, before, m, now, stored, Column(m.targetDate, apartments));
      out := FanOut(Column(m.targetDate, apartments), now);
      assert State() == stored.(breachSince := floorBreachSince);
    }

    method StoreNight(m: MarketPrice, now: Millis)
      requires Valid()
      modifies `nights, `nightDeadlines, `floorBreachSince, `timers
      ensures Valid()
      ensures State() == StoreMarket(old(State()), m, now)
    {
      var existing := Get(nights, m.targetDate);
      SweepNights(ExpiredNights(nights, DayOf(now)));
      nights := nights[m.targetDate := MergedNight(existing, m)];
      nightDeadlines := nightDeadlines[m.targetDate := NextDeadline(now)];
      timers := timers + {NextDeadline(now)};
    }

    /** Removes the expired nights one by one, with their deadlines and streaks. */
    method SweepNights(expired: set<Date>)
      modifies `nights, `nightDeadlines, `floorBreachSince
      ensures nights == old(nights) - expired
      ensures nightDeadlines == old(nightDeadlines) - expired
      ensures floorBreachSince == StreaksWithout(old(floorBreachSince), {}, expired)
    {
      var todo := expired;
      WalkBegins(expired);
      while todo != {}
        invariant todo <= expired
        invariant nights == old(nights) - (expired - todo)
        invariant nightDeadlines == old(nightDeadlines) - (expired - todo)
        invariant floorBreachSince == StreaksWithout(old(floorBreachSince), {}, expired - todo)
        decreases todo
      {
        ghost var some := Member(todo);
        var n :| n in todo;
        WalkStep(expired, todo, n);
        nights := nights - {n};
        nightDeadlines := nightDeadlines - {n};
        ForgetStreaks({}, {n});
        todo := todo - {n};
      }
      WalkBegins(expired);
    }

    /** The stale keys of one timer; the state does not change. */
    method OnTimer(timestamp: Millis) returns (apartmentIds: set<ApartmentId>, dates: set<Date>)
      ensures (apartmentIds, dates) == Stale(State(), timestamp)
    {
      apartmentIds := ExpiredKeys(apartmentDeadlines, timestamp);
      dates := ExpiredKeys(nightDeadlines, timestamp);
    }
  }
}
