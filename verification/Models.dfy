/** The values that travel between the stream operators. Dates are day numbers, instants are epoch
    milliseconds (UTC). */
module Models {
  import opened Wrappers
  import opened PricingEngine

  type ApartmentId = string
  type Date = int
  type Millis = int

  const DAY_MILLIS := 86_400_000

  function DayOf(now: Millis): Date {
    now / DAY_MILLIS
  }

  lemma DayMonotone(a: Millis, b: Millis)
    requires a <= b
    ensures DayOf(a) <= DayOf(b)
  {
  }

  datatype Behavior = FixedCost | VariableCost | SemiVariableCost
  datatype Recurrence = PerBooking | Daily | Monthly | Quarterly | Annual | OneOff
  datatype CalculationBase = FixedAmount | PctRevenue | PctAdjustedRevenue | PerNight | PerGuest
  datatype AllocationMethod =
    Direct | CalendarDay | AvailableNight | OccupiedNight | ByBooking | ByRevenue | Weighted
  datatype Scope = BookingScope | PropertyScope | CompanyScope

  /** A concept whose divisor is only known after the booking stage. */
  datatype PendingCorrection = PendingCorrection(
    concept: Concept,
    behavior: Behavior,
    allocationMethod: AllocationMethod,
    monthlyEquivalent: real)

  datatype CostAggregate = CostAggregate(
    apartmentId: ApartmentId,
    fixedCost: real,
    variableCost: real,
    perBookingCost: real,
    totalMonthlyCost: real,
    availableDays: int,
    costLinesCount: int,
    periodStart: Date,
    periodEnd: Date,
    targetMargin: real,
    discount: real,
    strategyVersion: int,
    updatedAt: Millis,
    attributeFactor: real,
    commissionPct: real,
    commissionBase: RevenueBase,
    percentageCosts: seq<PercentageCost>,
    netted: NettedCosts,
    occupiedNights: int,
    bookingCount: int,
    avgGuests: real,
    pending: seq<PendingCorrection>)

  datatype MarketSnapshot = MarketSnapshot(
    marketArea: string,
    avgNightlyRate: real,
    occupancyRate: Option<real>,
    sampleSize: int,
    collectedAt: Millis)

  /** One night of a segment: its blended rate, once known, and the channel rates seen so far. */
  datatype NightSnapshot = NightSnapshot(blended: Option<MarketSnapshot>, channels: map<Platform, MarketSnapshot>)

  /** A night whose blended rate is resolved: what a pair can be priced against. */
  datatype KnownNight = KnownNight(market: MarketSnapshot, channels: map<Platform, MarketSnapshot>)

  predicate IsKnown(night: NightSnapshot) {
    night.blended.Some?
  }

  function Known(night: NightSnapshot): KnownNight
    requires IsKnown(night)
  {
    KnownNight(night.blended.value, night.channels)
  }

  function ChannelRates(night: KnownNight): map<Platform, real> {
    map platform | platform in night.channels :: night.channels[platform].avgNightlyRate
  }

  /** A market event: the blended rate when platform is absent, one channel's rate otherwise. */
  datatype MarketPrice = MarketPrice(targetDate: Date, platform: Option<Platform>, snapshot: MarketSnapshot)

  /** Everything a decision derives from the two snapshots and the days left to arrival. */
  datatype Pricing = Pricing(
    costPerNight: real,
    p: real,
    netting: real,
    price: PriceCalculation,
    losMatrix: seq<LosCandidate>,
    minimumStay: MinimumStay,
    channels: map<Platform, ChannelCandidate>)

  datatype PriceDecision = PriceDecision(
    apartmentId: ApartmentId,
    targetDate: Date,
    decidedAt: Millis,
    daysToArrival: int,
    dataAgeSeconds: int,
    market: MarketSnapshot,
    commissionPct: real,
    strategyVersion: int,
    pricing: Pricing,
    viability: Viability,
    floorBreachDays: int)

  /** The rule was not market_competitive. */
  predicate Breaches(decision: PriceDecision) {
    !decision.pricing.price.rule.MarketCompetitive?
  }

  /** A decision and the floor-breach streak to store with it. */
  datatype Outcome = Outcome(decision: PriceDecision, breachSince: Option<Date>)
}
