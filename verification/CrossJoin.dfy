/** Stage B, the incremental cross join of one segment: its keyed state and the step each event takes
    on it. How a pair is priced is an argument, so that what is proved of the join does not depend
    on the pricing formula; the program passes PriceDecisions.BuildPriceDecision. */
module CrossJoin {
  import opened Wrappers
  import opened Models

  const MAX_ENTRIES := 500
  const FRESHNESS_THRESHOLD_MS := 48 * 60 * 60 * 1000

  /** `_build_price_decision` as the join sees it: both snapshots, the night, the clock and the
      stored streak in; the decision and the streak to store out. */
  type Pricer = (CostAggregate, KnownNight, Date, Millis, Option<Date>) -> Outcome

  /** What the join relies on: a decision names its pair and its instant, and carries the streak on. */
  ghost predicate Lawful(price: Pricer) {
    forall cost, night, date, now, since ::
      var o := price(cost, night, date, now, since);
      && o.decision.apartmentId == cost.apartmentId
      && o.decision.targetDate == date
      && o.decision.decidedAt == now
      && o.breachSince == (if !Breaches(o.decision) then None else if since.Some? then since else Some(DayOf(now)))
      && o.decision.floorBreachDays == (if o.breachSince.Some? then DayOf(now) - o.breachSince.value else 0)
  }

  /** The key of a floor-breach streak. */
  datatype Pair = Pair(apartment: ApartmentId, night: Date)

  /** The five map states, and the processing-time timers registered so far. */
  datatype Segment = Segment(
    apartments: map<ApartmentId, CostAggregate>,
    nights: map<Date, NightSnapshot>,
    apartmentDeadlines: map<ApartmentId, Millis>,
    nightDeadlines: map<Date, Millis>,
    breachSince: map<Pair, Date>,
    timers: set<Millis>)

  const EMPTY := Segment(map[], map[], map[], map[], map[], {})

  function NextDeadline(now: Millis): Millis {
    now + FRESHNESS_THRESHOLD_MS
  }

  predicate SafeToOverwrite(candidate: Millis, existing: Option<Millis>) {
    existing.None? || candidate >= existing.value
  }

  predicate OverCapacity(size: int) {
    size > MAX_ENTRIES
  }

  predicate IsOldest(victim: ApartmentId, apartments: map<ApartmentId, CostAggregate>) {
    victim in apartments && forall a :: a in apartments ==> apartments[victim].updatedAt <= apartments[a].updatedAt
  }

  function PairOf(decision: PriceDecision): Pair {
    Pair(decision.apartmentId, decision.targetDate)
  }

  /** A pair that the cross join covers: both sides known, the night's blended rate included. */
  predicate Joined(s: Segment, pair: Pair) {
    pair.apartment in s.apartments && pair.night in s.nights && IsKnown(s.nights[pair.night])
  }

  predicate AllJoined(s: Segment, pairs: set<Pair>) {
    forall pair :: pair in pairs ==> Joined(s, pair)
  }

  // ---------------------------------------------------------------- fan-out

  function Row(a: ApartmentId, nights: map<Date, NightSnapshot>): set<Pair> {
    set n | n in nights && IsKnown(nights[n]) :: Pair(a, n)
  }

  function Column(n: Date, apartments: map<ApartmentId, CostAggregate>): set<Pair> {
    set a | a in apartments :: Pair(a, n)
  }

  function Reprice(price: Pricer, s: Segment, touched: set<Pair>, now: Millis): map<Pair, Outcome>
    requires AllJoined(s, touched)
  {
    map pair | pair in touched ::
      price(s.apartments[pair.apartment], Known(s.nights[pair.night]), pair.night, now, Get(s.breachSince, pair))
  }

  /** The streaks after a batch: put where the decision breaches, removed where it does not. */
  function UpdateStreaks(streaks: map<Pair, Date>, batch: map<Pair, Outcome>): map<Pair, Date> {
    map pair | pair in streaks.Keys + batch.Keys && (pair in batch ==> batch[pair].breachSince.Some?) ::
      if pair in batch then batch[pair].breachSince.value else streaks[pair]
  }

  // ---------------------------------------------------------------- cost side

  predicate AcceptsCost(s: Segment, value: CostAggregate) {
    SafeToOverwrite(value.updatedAt,
                    if value.apartmentId in s.apartments then Some(s.apartments[value.apartmentId].updatedAt) else None)
  }

  predicate NeedsEviction(s: Segment, value: CostAggregate) {
    OverCapacity(|s.apartments| + if value.apartmentId in s.apartments then 0 else 1)
  }

  /** victim may be the apartment that makes room for value. */
  ghost predicate MayEvict(s: Segment, value: CostAggregate, victim: ApartmentId) {
    AcceptsCost(s, value) && NeedsEviction(s, value) ==> IsOldest(victim, s.apartments)
  }

  /** The streaks that survive when these apartments and these nights leave the state. */
  function StreaksWithout(streaks: map<Pair, Date>, apartments: set<ApartmentId>, nights: set<Date>): map<Pair, Date> {
    map pair | pair in streaks && pair.apartment !in apartments && pair.night !in nights :: streaks[pair]
  }

  function DropApartment(s: Segment, victim: ApartmentId): Segment {
    s.(apartments := s.apartments - {victim},
       apartmentDeadlines := s.apartmentDeadlines - {victim},
       breachSince := StreaksWithout(s.breachSince, {victim}, {}))
  }

  function PutCost(s: Segment, value: CostAggregate, now: Millis): Segment {
    s.(apartments := s.apartments[value.apartmentId := value],
       apartmentDeadlines := s.apartmentDeadlines[value.apartmentId := NextDeadline(now)],
       timers := s.timers + {NextDeadline(now)})
  }

  /** The state right before the fan-out of an accepted cost. The victim is the apartment `min`
      returned; several may be equally old, so it is an argument. */
  function StoreCost(s: Segment, value: CostAggregate, now: Millis, victim: ApartmentId): Segment {
    PutCost(if NeedsEviction(s, value) then DropApartment(s, victim) else s, value, now)
  }

  function CostBatch(price: Pricer, s: Segment, value: CostAggregate, now: Millis,
                     victim: ApartmentId): map<Pair, Outcome>
  {
    if AcceptsCost(s, value) then
      var stored := StoreCost(s, value, now, victim);
      Reprice(price, stored, Row(value.apartmentId, stored.nights), now)
    else map[]
  }

  function CostStep(price: Pricer, s: Segment, value: CostAggregate, now: Millis, victim: ApartmentId): Segment {
    if AcceptsCost(s, value) then
      var stored := StoreCost(s, value, now, victim);
      stored.(breachSince := UpdateStreaks(stored.breachSince, CostBatch(price, s, value, now, victim)))
    else s
  }

  // ---------------------------------------------------------------- market side

  /** The stored sub-snapshot this market event would replace. */
  function Previous(s: Segment, m: MarketPrice): Option<MarketSnapshot> {
    if m.targetDate !in s.nights then None
    else if m.platform.None? then s.nights[m.targetDate].blended
    else Get(s.nights[m.targetDate].channels, m.platform.value)
  }

  predicate AcceptsMarket(s: Segment, m: MarketPrice, now: Millis) {
    && m.targetDate >= DayOf(now)
    && SafeToOverwrite(m.snapshot.collectedAt,
                       if Previous(s, m).Some? then Some(Previous(s, m).value.collectedAt) else None)
  }

  function ExpiredNights(nights: map<Date, NightSnapshot>, today: Date): set<Date> {
    set n | n in nights && n < today
  }

  function DropNights(s: Segment, expired: set<Date>): Segment {
    s.(nights := s.nights - expired,
       nightDeadlines := s.nightDeadlines - expired,
       breachSince := StreaksWithout(s.breachSince, {}, expired))
  }

  function MergedNight(existing: Option<NightSnapshot>, m: MarketPrice): NightSnapshot {
    var blended := if existing.Some? then existing.value.blended else None;
    var channels := if existing.Some? then existing.value.channels else map[];
    if m.platform.None? then NightSnapshot(Some(m.snapshot), channels)
    else NightSnapshot(blended, channels[m.platform.value := m.snapshot])
  }

  function PutNight(s: Segment, n: Date, night: NightSnapshot, now: Millis): Segment {
    s.(nights := s.nights[n := night],
       nightDeadlines := s.nightDeadlines[n := NextDeadline(now)],
       timers := s.timers + {NextDeadline(now)})
  }

  function StoreMarket(s: Segment, m: MarketPrice, now: Millis): Segment {
    PutNight(DropNights(s, ExpiredNights(s.nights, DayOf(now))), m.targetDate,
             MergedNight(Get(s.nights, m.targetDate), m), now)
  }

  function MarketBatch(price: Pricer, s: Segment, m: MarketPrice, now: Millis): map<Pair, Outcome> {
    if AcceptsMarket(s, m, now) && IsKnown(StoreMarket(s, m, now).nights[m.targetDate]) then
      var stored := StoreMarket(s, m, now);
      Reprice(price, stored, Column(m.targetDate, stored.apartments), now)
    else map[]
  }

  function MarketStep(price: Pricer, s: Segment, m: MarketPrice, now: Millis): Segment {
    if AcceptsMarket(s, m, now) then
      var stored := StoreMarket(s, m, now);
      stored.(breachSince := UpdateStreaks(stored.breachSince, MarketBatch(price, s, m, now)))
    else s
  }

  /** An accepted market event, once stored: without a blended rate nothing is priced. */
  lemma UnknownNightStep(price: Pricer, s: Segment, m: MarketPrice, now: Millis)
    requires AcceptsMarket(s, m, now) && !IsKnown(StoreMarket(s, m, now).nights[m.targetDate])
    ensures MarketStep(price, s, m, now) == StoreMarket(s, m, now) && MarketBatch(price, s, m, now) == map[]
  {
    var stored := StoreMarket(s, m, now);
    assert UpdateStreaks(stored.breachSince, map[]) == stored.breachSince;
  }

  /** With one, its whole column is. */
  lemma KnownNightStep(price: Pricer, s: Segment, m: MarketPrice, now: Millis, stored: Segment, touched: set<Pair>)
    requires AcceptsMarket(s, m, now) && stored == StoreMarket(s, m, now) && IsKnown(stored.nights[m.targetDate])
    requires touched == Column(m.targetDate, stored.apartments)
    ensures AllJoined(stored, touched)
    ensures MarketBatch(price, s, m, now) == Reprice(price, stored, touched, now)
    ensures MarketStep(price, s, m, now) ==
            stored.(breachSince := UpdateStreaks(stored.breachSince, Reprice(price, stored, touched, now)))
  {
  }

  // ---------------------------------------------------------------- timer

  function ExpiredKeys<K>(deadlines: map<K, Millis>, firedAt: Millis): set<K> {
    set k | k in deadlines && deadlines[k] == firedAt
  }

  /** The data-stale alerts of one timer: stale apartments and stale nights. */
  function Stale(s: Segment, firedAt: Millis): (set<ApartmentId>, set<Date>) {
    (ExpiredKeys(s.apartmentDeadlines, firedAt), ExpiredKeys(s.nightDeadlines, firedAt))
  }
}
