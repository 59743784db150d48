/** Whole runs of Stage B: the world after any legal sequence of events, with the history a reader of
    the output would keep, and what every reachable world satisfies. */
module SegmentRuns {
  import opened Wrappers
  import opened Models
  import opened CrossJoin

  datatype Event =
    | CostArrives(value: CostAggregate, now: Millis, victim: ApartmentId)
    | MarketArrives(market: MarketPrice, now: Millis)
    | TimerFires(firedAt: Millis)

  /** An emitted decision with the clock and the stored streak it was computed from. */
  datatype Emission = Emission(outcome: Outcome, at: Millis, prior: Option<Date>)

  /** The state and what has been observed: the last decision ever emitted for each pair, the
      decisions emitted for each joined pair since it joined, how often each pair was emitted, and
      when each apartment and night was last accepted. */
  datatype World = World(
    seg: Segment,
    clock: Millis,
    view: map<Pair, Emission>,
    decisions: map<Pair, seq<PriceDecision>>,
    emitted: multiset<Pair>,
    costAcceptedAt: map<ApartmentId, Millis>,
    nightAcceptedAt: map<Date, Millis>)

  function Start(clock: Millis): World {
    World(EMPTY, clock, map[], map[], multiset{}, map[], map[])
  }

  /** The decisions emitted for a pair since it joined. */
  function Since(decisions: map<Pair, seq<PriceDecision>>, pair: Pair): seq<PriceDecision> {
    if pair in decisions then decisions[pair] else []
  }

  function NextView(view: map<Pair, Emission>, batch: map<Pair, Outcome>, streaks: map<Pair, Date>,
                    now: Millis): map<Pair, Emission>
  {
    map pair | pair in view.Keys + batch.Keys ::
      if pair in batch then Emission(batch[pair], now, Get(streaks, pair)) else view[pair]
  }

  /** The histories of the pairs that are joined in s, extended by a batch. */
  function NextDecisions(decisions: map<Pair, seq<PriceDecision>>, batch: map<Pair, Outcome>,
                         s: Segment): map<Pair, seq<PriceDecision>>
  {
    map pair | pair in decisions.Keys + batch.Keys && Joined(s, pair) ::
      if pair in batch then Since(decisions, pair) + [batch[pair].decision] else decisions[pair]
  }

  lemma NextViewAt(view: map<Pair, Emission>, batch: map<Pair, Outcome>, streaks: map<Pair, Date>, now: Millis,
                   pair: Pair)
    ensures Get(NextView(view, batch, streaks, now), pair) ==
            if pair in batch then Some(Emission(batch[pair], now, Get(streaks, pair))) else Get(view, pair)
  {
  }

  lemma NextDecisionsAt(decisions: map<Pair, seq<PriceDecision>>, batch: map<Pair, Outcome>, s: Segment, pair: Pair)
    ensures Get(NextDecisions(decisions, batch, s), pair) ==
            if !Joined(s, pair) then None
            else if pair in batch then Some(Since(decisions, pair) + [batch[pair].decision])
            else Get(decisions, pair)
  {
  }

  lemma UpdateStreaksAt(streaks: map<Pair, Date>, batch: map<Pair, Outcome>, pair: Pair)
    ensures Get(UpdateStreaks(streaks, batch), pair) == if pair in batch then batch[pair].breachSince
            else Get(streaks, pair)
  {
  }

  /** The world after storing `stored` and repricing the touched pairs. */
  function Advance(price: Pricer, w: World, stored: Segment, touched: set<Pair>, now: Millis): World
    requires AllJoined(stored, touched)
  {
    var batch := Reprice(price, stored, touched, now);
    w.(seg := stored.(breachSince := UpdateStreaks(stored.breachSince, batch)),
       clock := now,
       view := NextView(w.view, batch, stored.breachSince, now),
       decisions := NextDecisions(w.decisions, batch, stored),
       emitted := w.emitted + multiset(touched))
  }

  function Touched(s: Segment, m: MarketPrice): set<Pair>
    requires m.targetDate in s.nights
  {
    if IsKnown(s.nights[m.targetDate]) then Column(m.targetDate, s.apartments) else {}
  }

  function Next(price: Pricer, w: World, e: Event): World {
    match e
    case CostArrives(value, now, victim) =>
      if AcceptsCost(w.seg, value) then
        var stored := StoreCost(w.seg, value, now, victim);
        Advance(price, w, stored, Row(value.apartmentId, stored.nights), now)
          .(costAcceptedAt := w.costAcceptedAt[value.apartmentId := now])
      else w.(clock := now)
    case MarketArrives(m, now) =>
      if AcceptsMarket(w.seg, m, now) then
        var stored := StoreMarket(w.seg, m, now);
        Advance(price, w, stored, Touched(stored, m), now)
          .(nightAcceptedAt := w.nightAcceptedAt[m.targetDate := now])
      else w.(clock := now)
    case TimerFires(_) => w
  }

  /** The clock does not run backwards, and an eviction removes an oldest apartment. */
  ghost predicate Legal(w: World, e: Event) {
    match e
    case CostArrives(value, now, victim) => w.clock <= now && MayEvict(w.seg, value, victim)
    case MarketArrives(_, now) => w.clock <= now
    case TimerFires(_) => true
  }

  /** The world after a run of events from the empty state. */
  function Run(price: Pricer, clock: Millis, events: seq<Event>): World {
    if events == [] then Start(clock)
    else Next(price, Run(price, clock, events[..|events| - 1]), events[|events| - 1])
  }

  ghost predicate LegalRun(price: Pricer, clock: Millis, events: seq<Event>) {
    events != [] ==>
      && LegalRun(price, clock, events[..|events| - 1])
      && Legal(Run(price, clock, events[..|events| - 1]), events[|events| - 1])
  }

  /** after.view is before.view with exactly this batch put on top. */
  ghost predicate ViewTakes(before: World, after: World, batch: map<Pair, Outcome>) {
    && (forall pair :: pair in batch ==> pair in after.view && after.view[pair].outcome == batch[pair])
    && (forall pair :: pair !in batch ==> Get(after.view, pair) == Get(before.view, pair))
    && after.emitted == before.emitted + multiset(batch.Keys)
  }

  lemma AdvanceTakesBatch(price: Pricer, w: World, stored: Segment, touched: set<Pair>, now: Millis)
    requires AllJoined(stored, touched)
    ensures ViewTakes(w, Advance(price, w, stored, touched, now), Reprice(price, stored, touched, now))
  {
    var batch := Reprice(price, stored, touched, now);
    assert batch.Keys == touched;
    forall pair ensures Get(Advance(price, w, stored, touched, now).view, pair) ==
                        if pair in batch then Some(Emission(batch[pair], now, Get(stored.breachSince, pair)))
                            else Get(w.view, pair)
    {
      NextViewAt(w.view, batch, stored.breachSince, now, pair);
    }
  }

  /** The operator's steps are the run's steps: same state, and the view takes exactly its batch. */
  lemma CostStepIsNext(price: Pricer, w: World, value: CostAggregate, now: Millis, victim: ApartmentId)
    ensures Next(price, w, CostArrives(value, now, victim)).seg == CostStep(price, w.seg, value, now, victim)
    ensures ViewTakes(w, Next(price, w, CostArrives(value, now, victim)), CostBatch(price, w.seg, value, now, victim))
  {
    if AcceptsCost(w.seg, value) {
      var stored := StoreCost(w.seg, value, now, victim);
      AdvanceTakesBatch(price, w, stored, Row(value.apartmentId, stored.nights), now);
    }
  }

  lemma MarketStepIsNext(price: Pricer, w: World, m: MarketPrice, now: Millis)
    ensures Next(price, w, MarketArrives(m, now)).seg == MarketStep(price, w.seg, m, now)
    ensures ViewTakes(w, Next(price, w, MarketArrives(m, now)), MarketBatch(price, w.seg, m, now))
  {
    if AcceptsMarket(w.seg, m, now) {
      var stored := StoreMarket(w.seg, m, now);
      AdvanceTakesBatch(price, w, stored, Touched(stored, m), now);
      if IsKnown(stored.nights[m.targetDate]) {
        KnownNightStep(price, w.seg, m, now, stored, Column(m.targetDate, stored.apartments));
      } else {
        UnknownNightStep(price, w.seg, m, now);
        assert Reprice(price, stored, {}, now) == map[];
      }
    }
  }
}
