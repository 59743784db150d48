# Verification model of the price-decision pipeline

A Dafny model of the stateful stream operators and the pricing formulas of this repository, with
machine-checked proofs of what they promise. `dafny verify dfyconfig.toml` checks everything.

What is modelled, module by module:

- **Stage B, the incremental cross join** (`CrossJoin`, `PriceDecisionStage`, `SegmentRuns`,
  `SegmentLaws`, `StoredSnapshots`, `Interleaving`, `PricedSegment`, `PriceDecisions`). The operator is a class that owns
  the five map states and the registered timers; every method is proved to take one step of a
  specification (`CrossJoin`), and the laws are proved of whole runs of that specification, with the
  history an observer of the output would keep. The join is generic in the pricing function; the
  program passes `PriceDecisions.BuildPriceDecision`, which `PricedSegment` does.
- **Lakehouse ingestion** (`ShardOrder`, `LakehouseProtocol`, `LakehouseLaws`, `LakehouseConsumer`,
  `LakehouseProgress`).
  Read, delete, append, checkpoint and crash are separate steps; the stream grows, splits and expires
  between any two of them. The consumer, its table and its checkpoint store are classes whose methods
  are runs of those steps; that the polling loop gets done is proved for a stream that has come to rest.
- **State that forgets** (`CostEnrichment`, `CostHistory`, `CostEnrichmentStage`, `Occupancy`,
  `BookingEnrichment`, `Strategies`). Each small state is compared with the full history of what was
  ever received.
- **Prices and costs** (`PricingEngine`, `LengthOfStay`, `ProfitGuarantee`, `NightFigures`, `ChannelPrices`,
  `PublishedStatus`, `MinimumStayPrice`, `BookingWindow`, `CostAggregation`, `AggregateExactly`,
  `AllocationCorrection`, `CorrectedNights`, `CompanyCost`, `EndToEndCost`, `NettedAmounts`, `NettingGap`, `Structural`, `Rounding`).
  Money is `real`; `round(x, d)` is rounding to the nearest multiple, ties to even, as in Python.
- **Two smaller protocols** (`PublishBatch`, `MarketPulse`).

`Wrappers`, `Listings` and `Models` hold what the others share.

## Reading the model

- Dates are day numbers, instants are epoch milliseconds in UTC. The clock is read once per event and
  does not run backwards. Retention, ages and streaks are computed from those numbers.
- The order in which a Flink MapState or a Python dict or set is iterated is left open. Methods walk it
  in an arbitrary order, and the laws hold for every order. Per-concept entries, which the source builds
  from a set, appear in the order of first appearance here.
- Enumerations that the database closes with a CHECK (behavior, recurrence, scope, allocation method,
  calculation base, revenue base, booking status, quality tier) are datatypes. So are the three
  platforms with a commission; the market event schema also admits "mixed", on which the source fails.
- Composite `apartment|date` keys are pairs. Shard ids are integers in the order of the ids' strings;
  sequence numbers are natural numbers in stream order.
- Which of several equally old apartments `min` evicts is an argument of the specification.
- What a remote service answers (how many records a read returns, which records of a batch fail) is
  arbitrary, and so is how the stream moves on between any two steps of the consumer.

## Where the code and its documentation disagree

The model follows the code.

- `order_shards_for_processing` is documented as parent-first for shards of one lineage. It sorts by
  (has a parent, shard id), so a drained parent that itself has a parent comes first only if its id is
  smaller: `ShardOrder.ParentFirstExactly`, with an instance in `ShardOrder.ParentFirstCanFail`. No
  record is read out of order because of it: `LakehouseLaws.ParentBeforeChild`.
- `merge_rows` is documented as never accumulating. It deletes what earlier batches wrote, so ids
  repeated inside one batch stay: `LakehouseProtocol.MergeIsUniqueExactly`, with an instance in
  `LakehouseProtocol.RepeatedIdStays`. That needs a stream that carries one decision id twice; the
  protocol's runs assume that it does not.
- `recommend_minimum_stay` says its reservation price is at or below the market reference. It is exactly
  when the recommended stay's floor is: `MinimumStayPrice.RecommendationAgainstMarket`. It is not in
  `MinimumStayPrice.RecommendedAboveMarket`. It never exceeds the property reference.
- `price_status` is documented to agree with the engine. On the engine's unrounded price it does exactly
  as long as the netting stays within `ProfitGuarantee.NettingLimit`:
  `ProfitGuarantee.NettingLimitIsExact`. The dashboard calls it on the published figures, rounded to
  cents, where the exact conditions are `PublishedStatus.ShownAgreesExactly` and
  `PublishedStatus.ShownNeverShortExactly`; `PublishedStatus.RoundedBelowProfit` and
  `PublishedStatus.RoundedOntoMarket` stay within the limit and still disagree.
- `aggregate_cost` says the netting amounts are already fully counted inside the fixed and variable
  cost. They are sums of undivided gross amounts over all lines of the period, never less than their
  part of the two buckets, and equal to it exactly when every line with an amount is recurring, not a
  percentage, not deferred and not spread over several months: `NettedAmounts.NettingIsCountedExactly`,
  with an instance of each kind that fails beside it. What it does to the status of the price:
  `NettingGap.FeeAgainstLimit`, and in an instance `NettingGap.YearlyFeeFallsShort`.
- The comment on `per_booking_cost_eur` speaks of lines allocated by booking; the code averages the
  lines whose recurrence is one_off, and defers those allocated by booking:
  `NettedAmounts.OneOffFeeIsNotCounted`, `NettedAmounts.DeferredFeeIsNotCounted`.
- The booking stage promises a buffer of 90 days. Evicting strictly before the cutoff makes it 91:
  `BookingEnrichment.EvictionRefinesFullHistory` and `BookingEnrichment.LargerFallMissesANight`.

## Model

| member | source | states |
|---|---|---|
| `PriceDecisionStage.PriceDecisionFunction.ProcessElement1` | streaming/flink-jobs/src/flink_jobs/stage_price_decision.py:98-139 | The whole new state and the decisions emitted for one cost event: stale replays change nothing, at capacity an oldest apartment leaves with its deadline and streaks, every known night of the row is repriced with its own streak. |
| `PriceDecisionStage.PriceDecisionFunction.ProcessElement2` | streaming/flink-jobs/src/flink_jobs/stage_price_decision.py:141-217 | The same for one market event: past nights and stale sub-snapshots change nothing, expired nights are swept with their streaks, the column is repriced only once the blended rate is known. |
| `PriceDecisionStage.PriceDecisionFunction.ForgetStreaks` | streaming/flink-jobs/src/flink_jobs/stage_price_decision.py:112-116 | The key-by-key removal leaves exactly the streaks of pairs outside the evicted apartments and swept nights. |
| `PriceDecisionStage.PriceDecisionFunction.FanOut` | streaming/flink-jobs/src/flink_jobs/stage_price_decision.py:123-139 | The loop over the touched pairs emits one decision each, priced with its own stored streak, and writes every streak back. |
| `PriceDecisionStage.PriceDecisionFunction.SweepNights` | streaming/flink-jobs/src/flink_jobs/stage_price_decision.py:176-187 | Removes exactly the expired nights it is given, with their deadlines and streaks. |
| `PriceDecisionStage.PriceDecisionFunction.StoreNight` | streaming/flink-jobs/src/flink_jobs/stage_price_decision.py:189-204 | Sweeps the past nights, replaces one sub-snapshot of the night, keeps its others, and sets deadline and timer. |
| `PriceDecisionStage.PriceDecisionFunction.OnTimer` | streaming/flink-jobs/src/flink_jobs/stage_price_decision.py:219-226 | A timer reports the keys whose deadline equals the firing time and changes no state. |
| `PriceDecisionStage.OldestKeyByUpdatedAt` | streaming/flink-jobs/src/flink_jobs/eviction.py:23-25 | The scan returns an apartment that no other is older than. |
| `SegmentRuns.CostStepIsNext` | streaming/flink-jobs/src/flink_jobs/stage_price_decision.py:98-139 | A cost event of the operator is a step of a run: same state, and the observed view takes exactly its decisions. |
| `SegmentRuns.MarketStepIsNext` | streaming/flink-jobs/src/flink_jobs/stage_price_decision.py:141-217 | A market event of the operator is a step of a run. |
| `SegmentLaws.InvHolds` | streaming/flink-jobs/src/flink_jobs/stage_price_decision.py:84-226 | Alignment, materialized view, streaks and watchdog hold together after every legal sequence of events. |
| `SegmentLaws.MaterializedView` | streaming/flink-jobs/src/flink_jobs/stage_price_decision.py:98-217 | After any run, for every apartment and every night with a blended rate, the last decision emitted for the pair is the pricing of exactly the snapshots stored now, although each event reprices one row or one column. |
| `PricedSegment.PublishedDecisionsAreCurrent` | streaming/flink-jobs/src/flink_jobs/stage_price_decision.py:229-393 | With the real pricing: the last published decision of a joined pair carries the price, stay matrix, minimum stay and channel prices of the stored snapshots on its day, and these are the last cost the apartment took, the last blended rate the night took and each platform's own last rate, told from the events alone. |
| `StoredSnapshots.StoredRatesAreTheLast` | streaming/flink-jobs/src/flink_jobs/stage_price_decision.py:145-204 | After any events, a night in state shows as blended rate that of the last blended event it took since it entered and as rate of a platform that of that platform's last one, none where there was none: a channel's event never touches the blended rate. |
| `StoredSnapshots.StoredCostIsTheLast` | streaming/flink-jobs/src/flink_jobs/stage_price_decision.py:98-121 | After any legal run the stored cost of an apartment is the last one it took since it entered; it is absent exactly if none was taken or it was evicted since. |
| `PricedSegment.PublishedPricesKeepTheMargin` | streaming/flink-jobs/src/flink_jobs/stage_price_decision.py:263-371 | In every reachable state the decision published last for a joined pair is priced from the stored aggregate's own figures: all percentages are in its rate, and after every percentage of the lines and the commission, each on its own revenue, and all three costs, the price of each of the five stay lengths and of every channel leaves the target margin up to explicit slack if the rates and the margin stay below 1; its references are the market's. |
| `NightFigures.NightIsPricedFrom` | streaming/flink-jobs/src/flink_jobs/stage_price_decision.py:263-345 | Every night's pricing in the aggregate's own figures: its rate, the margin of each stay length and of each channel, its minimum stay and its references. |
| `NightFigures.StayKeepsTheMargin` | libs/pricing-formulas/src/pricing_formulas/engine.py:96-143 | For any stay length the published price leaves, over all nights and with the booking's cost once, the target margin after every percentage of the lines and the commission, up to the slack of each night. |
| `NightFigures.PublishedStaysKeepTheMargin` | libs/pricing-formulas/src/pricing_formulas/engine.py:316-366 | Each of the five entries of the published matrix, for 1, 2, 3, 7 and 14 nights, keeps that margin. |
| `NightFigures.PublishedRecommendation` | libs/pricing-formulas/src/pricing_formulas/engine.py:217-313 | The minimum stay published with a matrix is read off it: the first entry not priced above the property reference, its price for all its nights, its cost of all nights and one booking; none iff all five entries are driven above it. |
| `NightFigures.PublishedChannelKeepsTheMargin` | libs/pricing-formulas/src/pricing_formulas/engine.py:390-460 | Each published channel price keeps it for one night under that channel's own commission and the lines' percentages, if on nothing those take nothing. |
| `NightFigures.PublishedRates` | streaming/flink-jobs/src/flink_jobs/stage_price_decision.py:276-300 | The rate shown is the rounded sum of all lines' rates and the commission, the cost shown the sum of the two buckets, the netting what those rates would take of the netted amounts, to half a cent per term. |
| `NightFigures.PublishedReferences` | libs/pricing-formulas/src/pricing_formulas/engine.py:120-143 | The property reference is the market rate times the attribute factor times the factor of the tier the days left select, the market reference that less the discount, and the shown gap is that between reference and price, all to rounding. |
| `NightFigures.ChannelReferences` | libs/pricing-formulas/src/pricing_formulas/engine.py:417-445 | The same for each observed channel on its own rate, and no other channel has a price. |
| `NightFigures.EffectiveMargin` | libs/pricing-formulas/src/pricing_formulas/engine.py:145-149 | The effective margin of every stay length is that of the price over the stay's cost of a night with the booking's cost spread over its nights; the floor is hard iff the target margin is 0. |
| `NightFigures.BreakEven` | libs/pricing-formulas/src/pricing_formulas/engine.py:112-113 | At the break-even price exactly the netted cost of the night is left after the percentages, to rounding. |
| `NightFigures.LineAndCommissionAdd` | streaming/flink-jobs/src/flink_jobs/stage_price_decision.py:276-284 | An instance: 15% on a line and 20% commission make a rate of 0.35, and a cost of 65 a floor of 100. |
| `NightFigures.ChannelCommissions` | libs/pricing-formulas/src/pricing_formulas/engine.py:369-387 | An instance for each platform: costs of 88, 85 and 92 have a floor of 100 on Airbnb, Booking and Vrbo. |
| `SegmentLaws.BreachStreak` | streaming/flink-jobs/src/flink_jobs/stage_price_decision.py:123-139 | For every live pair the stored date is the day of the first decision of the current unbroken non-competitive suffix since the pair joined, is absent iff the last decision was market_competitive, and breach days are never negative. |
| `SegmentLaws.StatesStayAligned` | streaming/flink-jobs/src/flink_jobs/stage_price_decision.py:100-121 | At most 500 apartments, deadlines for exactly the keys in state, streaks only for live pairs, in every reachable state. |
| `SegmentLaws.WatchdogReportsExactly` | streaming/flink-jobs/src/flink_jobs/watchdog.py:6-14 | Every live deadline has its timer, and a timer reports exactly the resident keys whose last accepted update came 48 hours before it. |
| `SegmentLaws.EvictionTakesTheOldest` | streaming/flink-jobs/src/flink_jobs/eviction.py:16-25 | Eviction happens only when a new apartment meets 500 residents, removes one that none is older than, and never the one being written. |
| `SegmentLaws.ApartmentTimestampsNeverGoBack` | streaming/flink-jobs/src/flink_jobs/staleness.py:4-11 | While an apartment stays resident its timestamp never decreases, over any continuation of any run. |
| `SegmentLaws.NightTimestampsNeverGoBack` | streaming/flink-jobs/src/flink_jobs/stage_price_decision.py:160-201 | While a night stays resident neither its blended rate nor any channel's rate goes back in time or is lost, over any continuation of any run. |
| `SegmentLaws.SweptNightsStayGone` | streaming/flink-jobs/src/flink_jobs/stage_price_decision.py:145-182 | A past night that left the state never comes back, whatever events follow. |
| `Interleaving.EveryInterleavingAgrees` | streaming/flink-jobs/tests/test_minicluster_smoke.py:53-59 | For M distinct apartments (at most 500) and K distinct future nights, one event each, every interleaving emits exactly M * K decisions, one per pair, and ends in the same apartments and nights. |
| `PriceDecisions.BuildPriceDecision` | streaming/flink-jobs/src/flink_jobs/stage_price_decision.py:229-525 | The decision names its pair and instant, its market snapshot, commission, strategy version and days to arrival; data age is whole seconds and never negative; the streak is updated by this decision's own rule before breach days are derived from it. |
| `PriceDecisions.ViabilityExactly` | streaming/flink-jobs/src/flink_jobs/stage_price_decision.py:373-391 | The viability status case by case, read off the streak as this decision leaves it: persistent breach iff 30 days or more, ok or demand upside iff the rule is market_competitive, else the first lever that applies, a channel's iff some channel's own rule is market_competitive. |
| `PriceDecisions.AssemblePriceDecision` | streaming/flink-jobs/src/flink_jobs/stage_price_decision.py:263-393 | The imperative assembly (netting loop, matrices, scans, channel loop) computes that decision. |
| `PricedSegment.AssembleForPair` | streaming/flink-jobs/src/flink_jobs/stage_price_decision.py:132-134 | What the operator's pricing function returns for a stored pair is what that assembly computes. |
| `ShardOrder.OrderShardsForProcessing` | services/lakehouse-consumer/src/lakehouse_consumer/streams.py:33-55 | The loop and the sort compute the ready shards of the specification. |
| `ShardOrder.ReadyExactly` | services/lakehouse-consumer/src/lakehouse_consumer/streams.py:43-55 | A shard is read in a pass iff it is listed and its parent is absent from the listing or drained; the order is that of the sort key. |
| `ShardOrder.ParentFirstExactly` | services/lakehouse-consumer/src/lakehouse_consumer/streams.py:35-55 | Of two ready shards of one lineage the parent comes first iff it is a root or has the smaller id. |
| `ShardOrder.ParentFirstCanFail` | services/lakehouse-consumer/src/lakehouse_consumer/streams.py:41-55 | A listing whose order is not parent-first. |
| `LakehouseProtocol.Cursor` | services/lakehouse-consumer/src/lakehouse_consumer/streams.py:58-64 | Reading starts at the first record after the checkpoint, or at the first record when there is none. |
| `LakehouseProtocol.MergeIsUniqueExactly` | services/lakehouse-consumer/src/lakehouse_consumer/iceberg_writer.py:49-65 | Merging into a table without duplicate ids leaves none iff the batch has none. |
| `LakehouseProtocol.RepeatedIdStays` | services/lakehouse-consumer/src/lakehouse_consumer/iceberg_writer.py:49-65 | An instance: two records of one decision in one batch, merged into an empty table, leave two rows. |
| `LakehouseLaws.InvStep` | services/lakehouse-consumer/src/lakehouse_consumer/main.py:36-90 | Every step of the protocol, crashes included, keeps the ingestion invariant. |
| `LakehouseLaws.ExactlyOnce` | services/lakehouse-consumer/src/lakehouse_consumer/main.py:36-63 | In every reachable state, with crashes between any two steps, no decision id has two rows, every checkpointed record with an image has its row, and every row is the image of a record. |
| `LakehouseLaws.DrainedTableIsTheStream` | services/lakehouse-consumer/src/lakehouse_consumer/checkpoint.py:12-25 | Once every record is checkpointed the table is the stream's image up to ingested_at. |
| `LakehouseLaws.DrainedMeansCheckpointed` | services/lakehouse-consumer/src/lakehouse_consumer/main.py:66-90 | A shard in the drained set is closed and all its records are checkpointed. |
| `LakehouseLaws.ParentBeforeChild` | services/lakehouse-consumer/src/lakehouse_consumer/streams.py:33-55 | Whenever a shard's records are appended and its parent was listed in the pass, the parent is closed, fully checkpointed, and its images are all in the table, also after restarts. |
| `LakehouseConsumer.IcebergTable.MergeRows` | services/lakehouse-consumer/src/lakehouse_consumer/iceberg_writer.py:49-65 | Delete by id, then append; nothing for an empty batch. |
| `LakehouseProtocol.ReadingResumesAfterPut` | services/lakehouse-consumer/src/lakehouse_consumer/checkpoint.py:4-25 | Put, get and read again: reading resumes strictly after the record whose sequence number was checkpointed, which is never read twice, and the cursor of every other shard stays where it was. |
| `LakehouseConsumer.CheckpointStore.PutCheckpoint` | services/lakehouse-consumer/src/lakehouse_consumer/checkpoint.py:12-25 | Overwrites one shard's cursor and no other. |
| `LakehouseConsumer.StreamsClient.GetRecords` | services/lakehouse-consumer/src/lakehouse_consumer/main.py:40-48 | Some records that directly follow the checkpoint, at most 1000; the end is reported exactly when the shard is closed and nothing is left after them. |
| `LakehouseConsumer.Consumer.ProcessShardOnce` | services/lakehouse-consumer/src/lakehouse_consumer/main.py:22-66 | One call reads right after the checkpoint, merges those rows, moves the checkpoint to the last record read, stays inside the reachable protocol states, and reports the shard exhausted exactly when it is closed and nothing is left. |
| `LakehouseConsumer.Consumer.Poll` | services/lakehouse-consumer/src/lakehouse_consumer/main.py:82-90 | One pass over a stream that moves before every turn: exactly the shards ready in the listing, in order, each read right after its checkpoint from the stream as it stands then; table and checkpoints are what those turns make of them, and drained afterwards are exactly the shards that were, or that a turn found closed and read to the end. |
| `LakehouseConsumer.DrainedExactly` | services/lakehouse-consumer/src/lakehouse_consumer/main.py:82-89 | After a pass a shard is drained iff it was before, or one of the turns was its own, found it closed and read its last record or found nothing left. |
| `LakehouseProgress.SomeUndrainedIsReady` | services/lakehouse-consumer/src/lakehouse_consumer/streams.py:43-52 | No deadlock: on a stream at rest, while some shard is not drained, one that is not drained is ready. |
| `LakehouseProgress.EnoughPassesDrain` | services/lakehouse-consumer/src/lakehouse_consumer/main.py:80-90 | As many passes as there are unread records and undrained shards drain every shard of a stream at rest, if every read returns something where something is left. |
| `LakehouseProgress.PollAtRest` | services/lakehouse-consumer/src/lakehouse_consumer/main.py:69-90 | The polling loop itself: after that many passes every record is checkpointed and the table is the stream, a row for each record with an image, no other row, none twice. |
| `LakehouseConsumer.Consumer.Restart` | services/lakehouse-consumer/src/lakehouse_consumer/main.py:80-80 | A restart loses the drained set and the pass, nothing durable. |
| `CostEnrichment.RetainedIsSortedPrefix` | streaming/flink-jobs/src/flink_jobs/cost_aggregation.py:141-146 | The ends with fewer than `keep` newer ones are the first `keep` of the descending list. |
| `CostEnrichment.RetainedAfterAdding` | streaming/flink-jobs/src/flink_jobs/cost_aggregation.py:141-146 | top(top(S) + {x}) == top(S + {x}) for every number of periods kept. |
| `CostEnrichment.TwoLatestPeriodsStay` | streaming/flink-jobs/src/flink_jobs/stage_cost_enrichment.py:56-64 | A line stays exactly when no two different period ends of the state are newer than its own. |
| `CostEnrichment.PruningRefinesFullHistory` | streaming/flink-jobs/src/flink_jobs/stage_cost_enrichment.py:55-66 | Over every sequence of upserts that never changes a line's period end, the pruned state is the two latest periods of the full latest-by-id map. |
| `CostEnrichment.LatestLinesAgree` | streaming/flink-jobs/src/flink_jobs/cost_aggregation.py:194-195 | Over every sequence that never moves a line to an earlier period, pruned state and full history have the same latest-period lines. |
| `CostEnrichment.PruningIsSafeExactly` | streaming/flink-jobs/src/flink_jobs/stage_cost_enrichment.py:55-66 | Pruned state and full history have the same latest-period lines after every upsert if and only if every upsert is harmless: each line already pruned stays behind the upserted line or behind a held line it does not touch. |
| `CostEnrichment.LoweringLosesLines` | streaming/flink-jobs/src/flink_jobs/stage_cost_enrichment.py:56-64 | Moving lines to earlier periods can lose one: an instance. |
| `CostHistory.AggregationIsOrderFreeExactly` | streaming/flink-jobs/src/flink_jobs/cost_aggregation.py:178-402 | Nothing the aggregation emits depends on the order of the lines if and only if they start on one day, the deferred lines of a concept are allocated alike, and its percentage lines are charged alike. |
| `CostHistory.AggregateOfPrunedIsAggregateOfFull` | streaming/flink-jobs/src/flink_jobs/stage_cost_enrichment.py:58-68 | Over all iteration orders, what can be aggregated from the pruned state is exactly what can be aggregated from the full history, provided every pruned line is older than some held one (characterized by `PruningIsSafeExactly`). |
| `CostEnrichmentStage.CostEnrichmentFunction.PruneLines` | streaming/flink-jobs/src/flink_jobs/stage_cost_enrichment.py:58-64 | The removal loop leaves exactly the lines of the two latest period ends. |
| `CostEnrichmentStage.CostEnrichmentFunction.ProcessElement` | streaming/flink-jobs/src/flink_jobs/stage_cost_enrichment.py:55-129 | State after the upsert, and an aggregate of that state is emitted iff profile and strategy are known. |
| `CostEnrichmentStage.CostEnrichmentFunction.ProcessSegmentRow` | streaming/flink-jobs/src/flink_jobs/stage_cost_enrichment.py:131-135 | A profile row replaces the apartment's profile and no other. |
| `CostEnrichmentStage.CostEnrichmentFunction.ProcessStrategyRow` | streaming/flink-jobs/src/flink_jobs/stage_cost_enrichment.py:136-145 | A row replaces the stored strategy only with a higher version. |
| `CostEnrichmentStage.EmittedFromFullHistory` | streaming/flink-jobs/src/flink_jobs/stage_cost_enrichment.py:66-98 | Under the same proviso, Stage A may emit an aggregate iff it may emit it from the full history. |
| `Strategies.ResolvesToHighest` | streaming/flink-jobs/src/flink_jobs/stage_cost_enrichment.py:136-145 | For every order and repetition of delivered rows the resolved strategy is the highest version delivered, and nothing iff none was. |
| `Strategies.DeliveriesConverge` | streaming/flink-jobs/src/flink_jobs/stage_cost_enrichment.py:141-145 | Two deliveries of the same rows resolve every apartment alike. |
| `Strategies.StrategyTable.NewStrategyVersion` | services/mock-pm-app/src/mock_pm_app/seed.py:137-189 | Inserts the highest version plus one with the overridden fields and all others carried over; fails without a row and inserts nothing. |
| `Strategies.StrategyTable.Current` | services/mock-pm-app/src/mock_pm_app/seed.py:144-156 | The row with the highest version of the apartment, if it has one. |
| `Strategies.StrategyTable.Seed` | services/mock-pm-app/src/mock_pm_app/seed.py:108-134 | Inserts a first version unless that (apartment, version) exists. |
| `Strategies.InsertingExtendsTheFold` | services/mock-pm-app/src/mock_pm_app/seed.py:150-189 | The current version is the fold of the changes so far, and the inserted row is the fold with one change more. |
| `Strategies.FoldedFields` | services/mock-pm-app/src/mock_pm_app/seed.py:161-188 | Field by field: margin, discount and floor policy are each as the last change that sets it set it, else the seed's; the version counts the changes. |
| `Strategies.DeliveryResolvesTheFold` | services/mock-pm-app/src/mock_pm_app/seed.py:137-189 | Once every inserted row has been delivered, in any order and number, the resolved strategy has every field as the last change that sets it set it, the seed's where none does. |
| `Occupancy.OccupiedNights` | streaming/flink-jobs/src/flink_jobs/occupancy.py:7-26 | The set-building loop counts exactly the period days covered by some confirmed [check_in, check_out). |
| `Occupancy.OccupancyIsBounded` | streaming/flink-jobs/src/flink_jobs/occupancy.py:7-26 | Never more occupied nights than available days. |
| `Occupancy.DisjointStaysAddUp` | streaming/flink-jobs/src/flink_jobs/occupancy.py:12-26 | When no two stays share a night the count is the sum of the clipped stay lengths. |
| `Occupancy.OccupiedIffStayCounted` | streaming/flink-jobs/src/flink_jobs/occupancy.py:7-42 | A night is occupied iff the period has a day and some counted booking has a night. |
| `Occupancy.NightsIffBookings` | streaming/flink-jobs/src/flink_jobs/occupancy.py:29-42 | With stays of at least one night and a non-empty period, nights and bookings are positive together. |
| `Occupancy.OrderDoesNotMatter` | streaming/flink-jobs/src/flink_jobs/occupancy.py:45-61 | Nights, bookings and average guests do not depend on the order of the bookings. |
| `BookingEnrichment.BookingEnrichmentFunction.ProcessElement1` | streaming/flink-jobs/src/flink_jobs/stage_booking_enrichment.py:67-71 | Caches the aggregate and emits it with the figures of the stored bookings. |
| `BookingEnrichment.BookingEnrichmentFunction.ProcessElement2` | streaming/flink-jobs/src/flink_jobs/stage_booking_enrichment.py:73-95 | Upserts, evicts behind the cutoff only when an aggregate is cached, and re-emits iff one is. |
| `BookingEnrichment.BookingEnrichmentFunction.RecomputeFromState` | streaming/flink-jobs/src/flink_jobs/stage_booking_enrichment.py:40-65 | The aggregate with the three figures of the stored bookings, and otherwise unchanged. |
| `BookingEnrichment.BookingEnrichmentFunction.EvictBefore` | streaming/flink-jobs/src/flink_jobs/stage_booking_enrichment.py:84-90 | The removal loop leaves exactly the bookings that check out at or after the cutoff. |
| `BookingEnrichment.EvictionRefinesFullHistory` | streaming/flink-jobs/src/flink_jobs/stage_booking_enrichment.py:40-95 | Every emission equals the one computed from the latest version of every booking ever received, as long as the cached period starts at most 91 days before any period seen. |
| `BookingEnrichment.LargerFallMissesANight` | streaming/flink-jobs/src/flink_jobs/stage_booking_enrichment.py:19-24 | The bound is exact: for every fall of more than 91 days some run misses an occupied night. |
| `BookingEnrichment.ReemissionsAreCorrectedOnce` | streaming/flink-jobs/src/flink_jobs/stage_booking_enrichment.py:67-95 | Every emission and re-emission carries the pending corrections of the last cost event, and correcting it adds each of them exactly once. |
| `BookingEnrichment.StageAIsCorrectedOnce` | streaming/flink-jobs/src/flink_jobs/stage_allocation_correction.py:14-55 | The same for the output of Stage A, whose amounts are whole cents, with nothing else assumed. |
| `AllocationCorrection.MapAggregate` | streaming/flink-jobs/src/flink_jobs/stage_allocation_correction.py:22-55 | The correction loop computes the corrected aggregate, whose buckets are those of `CorrectedNights.CorrectionByBucket`. |
| `AllocationCorrection.CorrectionAddsPerNight` | streaming/flink-jobs/src/flink_jobs/stage_allocation_correction.py:26-54 | On whole-cent costs the two buckets grow by exactly the sum of the per-night amounts; the final rounding changes nothing. |
| `CorrectedNights.CorrectionByBucket` | streaming/flink-jobs/src/flink_jobs/stage_allocation_correction.py:26-55 | The whole corrected aggregate: the fixed bucket grows by the shares of the fixed concepts, the variable one by those of all others; a share times the occupied nights (bookings) is the concept's total to half a cent each if it is allocated so and there are any, times the available days otherwise, and nothing else changes. |
| `CorrectedNights.EmittedFigures` | streaming/flink-jobs/src/flink_jobs/stage_booking_enrichment.py:40-65 | The nights and bookings those shares use: the days of the period that some stored confirmed stay keeps, the stored confirmed bookings with a day in it, and the average of their guests. |
| `CorrectedNights.EmissionIsCorrected` | streaming/flink-jobs/src/flink_jobs/stage_allocation_correction.py:14-55 | Both together, for every emission of the booking stage over the output of Stage A. |
| `CorrectedNights.ByNightsAndByBookings` | streaming/flink-jobs/src/flink_jobs/stage_allocation_correction.py:28-48 | An instance: 600 EUR with 20 occupied nights and 4 bookings are 30 a night in the fixed bucket by nights and 150 in the variable one by bookings. |
| `AllocationCorrection.RecurringSplits` | streaming/flink-jobs/src/flink_jobs/cost_aggregation.py:204-247 | Every recurring non-percentage amount goes to exactly one of the fixed bucket, the variable bucket and the deferred concepts. |
| `AllocationCorrection.CostIsConserved` | streaming/flink-jobs/src/flink_jobs/cost_aggregation.py:204-309 | Buckets times days plus each deferred concept's per-night amount times its own divisor is the total of the monthly equivalents, within 0.005 * (2D + the sum of divisor + 1). |
| `AllocationCorrection.CorrectionAddsWhatWasDeferred` | streaming/flink-jobs/src/flink_jobs/stage_allocation_correction.py:28-54 | For an aggregate of Stage A the correction adds all deferred per-night amounts and nothing else. |
| `CostAggregation.LatestEnd` | streaming/flink-jobs/src/flink_jobs/cost_aggregation.py:194-195 | The greatest period end of the lines, one that occurs. |
| `CostAggregation.ConceptsOf` | streaming/flink-jobs/src/flink_jobs/cost_aggregation.py:269-287 | The concepts of the lines, each once. |
| `AggregateExactly.AggregateFromLines` | streaming/flink-jobs/src/flink_jobs/cost_aggregation.py:178-402 | Every figure of the aggregate of any lines, from the lines alone: the latest period, its days, lines and total; which lines each bucket counts and at what a month; the average of the one-off lines, however many; the four netted totals; and one deferred and one percentage entry per concept with the amounts of all and the attributes of the first of its lines. |
| `AggregateExactly.EmittedExactly` | streaming/flink-jobs/src/flink_jobs/stage_cost_enrichment.py:66-129 | What Stage A emits has those figures of the lines in its state, the attribute factor of the profile, and margin, discount and version of the strategy. |
| `NettedAmounts.NettingIsCountedExactly` | streaming/flink-jobs/src/flink_jobs/cost_aggregation.py:311-348 | For any lines without negative amounts and each of the four netted totals: it is at least what the two buckets count of its lines, and equal iff every line with an amount is recurring, not a percentage, not deferred and not spread over several months. |
| `NettedAmounts.NettedPerNight` | streaming/flink-jobs/src/flink_jobs/cost_aggregation.py:335-348 | The same per night after rounding: no netted amount is below the share of its lines in the costs of a night. |
| `NettedAmounts.PeriodicFeeIsNettedInFull` | streaming/flink-jobs/src/flink_jobs/cost_aggregation.py:233-246 | A quarterly or annual fee that costs c a night is netted at 3 * c or 12 * c a night. |
| `NettedAmounts.PercentageFeeIsNotCounted` | streaming/flink-jobs/src/flink_jobs/cost_aggregation.py:204-213 | A percentage fee is netted, as OTA cost and as booking cost, and is in neither bucket. |
| `NettedAmounts.OneOffFeeIsNotCounted` | streaming/flink-jobs/src/flink_jobs/cost_aggregation.py:215-263 | A one-off fee is netted and in neither bucket; it is the cost of one booking. |
| `NettedAmounts.DeferredFeeIsNotCounted` | streaming/flink-jobs/src/flink_jobs/cost_aggregation.py:222-263 | A fee allocated by booking is netted at once, is in neither bucket, and is not part of the cost of one booking. |
| `NettingGap.FeeAgainstLimit` | streaming/flink-jobs/src/flink_jobs/stage_price_decision.py:276-300 | From the line to the status: with one such fee and one percentage cost net of it, the unrounded price agrees with its status on every market iff twice (quarterly) or eleven times (annual) the rate is at most margin * (rate + margin). |
| `NettingGap.YearlyFeeFallsShort` | streaming/flink-jobs/src/flink_jobs/stage_price_decision.py:276-300 | An instance: 3600 EUR a year, 15% commission net of it and a margin of 20% net 18 EUR on a nightly cost of 10, and on some market the price falls short. |
| `CompanyCost.CompanyCostEnrichmentFunction.ProcessElement` | streaming/flink-jobs/src/flink_jobs/stage_company_cost_enrichment.py:47-97 | The loop's result, the same for every iteration order of the occurrences; untouched when both additions are zero. |
| `CompanyCost.CompanyCostEnrichmentFunction.ShareNext` | streaming/flink-jobs/src/flink_jobs/stage_company_cost_enrichment.py:58-87 | One occurrence's night share; skipped occurrences and weights that are not positive bear nothing. |
| `CompanyCost.CompanyCostEnrichmentFunction.ProcessOccurrence` | streaming/flink-jobs/src/flink_jobs/stage_company_cost_enrichment.py:108-111 | An occurrence replaces the one with its id and no other. |
| `CompanyCost.AllocationRules.EnsureWeightedAllocationConfig` | services/mock-pm-app/src/mock_pm_app/seed.py:370-400 | Equal six-digit weights are written only where the rule has none. |
| `CompanyCost.AllottedAmountIsAdded` | streaming/flink-jobs/src/flink_jobs/stage_company_cost_enrichment.py:74-92 | For any non-negative weights, the apartments add over their periods their weight of what the invoice charges a month, to half a cent per night. |
| `CompanyCost.InvoiceIsConserved` | streaming/flink-jobs/src/flink_jobs/stage_company_cost_enrichment.py:58-97 | One invoice split equally over N apartments: the amounts added over the periods total what it charges a month (a twelfth of an annual invoice, a third of a quarterly one, all of any other, M in all), to within half a cent per night of every apartment plus N * abs(M) * 0.0000005. |
| `CompanyCost.FanOutConservesEverything` | streaming/flink-jobs/src/flink_jobs/stage_company_cost_enrichment.py:58-97 | The same for all occurrences together; what is not a company-wide invoice with known definition and weights adds nothing. |
| `CompanyCost.NightShareExactly` | streaming/flink-jobs/src/flink_jobs/stage_company_cost_enrichment.py:58-87 | One apartment, one invoice: the share of a night over the days is the weight's part of what the invoice charges a month, to half a cent a day; nothing without a positive weight or for a skipped invoice. |
| `CompanyCost.EnrichedByBucket` | streaming/flink-jobs/src/flink_jobs/stage_company_cost_enrichment.py:84-97 | The fixed bucket grows by the shares of the invoices whose definition is a fixed cost, the variable one by all others', and nothing else changes. |
| `CompanyCost.AnnualInvoice` | streaming/flink-jobs/src/flink_jobs/stage_company_cost_enrichment.py:73-82 | An instance: half of 12000 EUR a year is 16.67 EUR a night of 30 days. |
| `CompanyCost.EnrichedAddsShares` | streaming/flink-jobs/src/flink_jobs/stage_company_cost_enrichment.py:89-97 | On whole-cent costs the stage adds exactly the sum of the night shares. |
| `EndToEndCost.EveryEuroArrives` | streaming/flink-jobs/src/flink_jobs/stage_company_cost_enrichment.py:38-97 | End to end: what Stage B reads as the cost of a night, over the days and with deferred concepts over their own divisors, totals over all apartments what their recurring lines and the company's invoices come to a month by their recurrence, within the summed slacks of all stages. |
| `EndToEndCost.ReadBackSplits` | streaming/flink-jobs/src/flink_jobs/stage_allocation_correction.py:50-55 | Per apartment, what Stage B reads is what its own lines left plus what the company added, with no loss between the stages. |
| `Structural.FactorIsBoundedAndMonotone` | libs/pricing-formulas/src/pricing_formulas/layers/structural.py:60-72 | The rounded factor stays within [0.5, 2.0] and never favours an apartment that is worse in every attribute. |
| `Structural.AttributeSteps` | libs/pricing-formulas/src/pricing_formulas/layers/structural.py:1-72 | What each attribute is worth: instances for every tier, the view, the parking space and a point of rating. |
| `Rounding.NearestExactly` | libs/pricing-formulas/src/pricing_formulas/engine.py:166-177 | Rounding as the code uses it: the nearest multiple, and of two equally near ones the even one. |
| `BookingWindow.ScanTiers` | libs/pricing-formulas/src/pricing_formulas/layers/booking_window.py:12-30 | The scan returns the factor of the tier with the greatest threshold not above the days left, a past date counting as today. |
| `BookingWindow.FactorIsSelected` | libs/pricing-formulas/src/pricing_formulas/layers/booking_window.py:12-30 | The pricing engine's factor is that of the selected tier. |
| `PricingEngine.DecidePriceLosMatrix` | libs/pricing-formulas/src/pricing_formulas/engine.py:316-374 | The loop evaluates the price once per stay length, in order. |
| `PricingEngine.ScanMinimumStay` | libs/pricing-formulas/src/pricing_formulas/engine.py:217-313 | The early-return scan finds the first clearing candidate of the sorted matrix. |
| `PricingEngine.DecidePriceByChannel` | libs/pricing-formulas/src/pricing_formulas/engine.py:390-460 | Exactly one candidate per observed channel, each from its own rate and commission. |
| `LengthOfStay.LongerStayRelaxes` | libs/pricing-formulas/src/pricing_formulas/engine.py:217-240 | With a non-negative booking cost and p + m < 1 a longer stay never raises the floor nor worsens the rule. |
| `LengthOfStay.RecommendationIsTheThreshold` | libs/pricing-formulas/src/pricing_formulas/engine.py:217-313 | The recommendation is the least candidate that clears, every stay of at least that length clears, relief is not negative, and None iff no candidate clears. |
| `LengthOfStay.RecommendedReservation` | libs/pricing-formulas/src/pricing_formulas/engine.py:202-290 | The reservation's price is that of the recommended stay, which clears, and its cost is that of all its nights and one booking, to half a cent. |
| `LengthOfStay.ReliefOfRecommended` | libs/pricing-formulas/src/pricing_formulas/engine.py:235-264 | The relief is the floor of the shortest candidate less that of the recommended one, to half a cent. |
| `LengthOfStay.ResidualGap` | libs/pricing-formulas/src/pricing_formulas/engine.py:291-313 | Without a recommendation the gap is what separates the floor of the longest candidate from the property reference, to half a cent. |
| `LengthOfStay.ClearingPrice` | libs/pricing-formulas/src/pricing_formulas/layers/guardrails.py:62-98 | The unrounded nightly price of a stay that clears lies between its floor and the property reference. |
| `MinimumStayPrice.NightAgainstMarket` | libs/pricing-formulas/src/pricing_formulas/engine.py:229-240 | The nightly price of a stay that clears is at or below the market reference iff its floor is, before and after rounding, and lies between floor and property reference. |
| `MinimumStayPrice.RecommendationAgainstMarket` | libs/pricing-formulas/src/pricing_formulas/engine.py:217-290 | The recommended reservation's total is exactly its nightly price times its nights, between floor and property reference for them, and at or below the market reference for them iff the published floor of a night is at or below the published market reference. |
| `MinimumStayPrice.RecommendedAboveMarket` | libs/pricing-formulas/src/pricing_formulas/engine.py:235-240 | An instance where the promise fails: one night recommended at 90 against a market reference of 80. |
| `LengthOfStay.MinStayLeverExactly` | libs/pricing-formulas/src/pricing_formulas/viability.py:22-72 | The minimum-stay lever is reported iff nothing of higher priority applies, the one-night rule is minimum_profitable_price, and some longer candidate clears. |
| `ProfitGuarantee.AccumulateNetting` | streaming/flink-jobs/src/flink_jobs/stage_price_decision.py:288-300 | The netting loop is the rounded sum of the rounded terms. |
| `ProfitGuarantee.NettingError` | streaming/flink-jobs/src/flink_jobs/stage_price_decision.py:288-300 | The netting misses the exact one by at most half a cent per percentage cost. |
| `ProfitGuarantee.ProfitIsGuaranteed` | libs/pricing-formulas/src/pricing_formulas/engine.py:102-143 | With p + m < 1 the published price, less every percentage cost on its own base and the full cost of the night, leaves m times the price up to an explicit rounding slack. |
| `ProfitGuarantee.FloorReaches` | libs/pricing-formulas/src/pricing_formulas/engine.py:102-130 | The floor reaches cost, and cost * (1 + m), each iff the netting is within its limit. |
| `ProfitGuarantee.StatusAgreesWithRule` | dashboard/src/dashboard/hot_path.py:102-109 | On unrounded prices: within the limit the status never says below cost or below profit, and says above market iff the rule is minimum_profitable_price. |
| `ProfitGuarantee.NettingLimitIsExact` | dashboard/src/dashboard/hot_path.py:79-109 | On unrounded prices: the status agrees with the rule in all three respects on every market iff the netting is within the limit. |
| `PublishedStatus.ShownAgreesExactly` | dashboard/src/dashboard/hot_path.py:112-172 | On the published figures: the status shown agrees with the rule iff the rounded price reaches cost * (1 + m) and a floor above the property reference does not round onto it. |
| `PublishedStatus.ShownNeverShortExactly` | dashboard/src/dashboard/hot_path.py:112-172 | The status shown is never below cost or profit on any market iff the floor, rounded to cents, reaches cost * (1 + m). |
| `PublishedStatus.ShownShortExactly` | dashboard/src/dashboard/hot_path.py:102-109 | On one market: short iff the rounded price misses cost * (1 + m); otherwise above market iff the rule is minimum_profitable_price and floor and property reference do not round alike. |
| `PublishedStatus.RoundedBelowProfit` | dashboard/src/dashboard/hot_path.py:102-109 | An instance within the netting limit: cost 10.05 and margin 0.01 are published at 10.15 and shown below profit. |
| `PublishedStatus.RoundedOntoMarket` | dashboard/src/dashboard/hot_path.py:102-109 | An instance within the netting limit: under minimum_profitable_price, floor and reference round to 12.51 and the price is shown as competitive. |
| `ProfitGuarantee.OwnShareIsWithinLimit` | libs/pricing-formulas/src/pricing_formulas/layers/commercial.py:23-49 | Netting at most p * cost is within the limit. |
| `ProfitGuarantee.PublishedPriceCoversCost` | libs/pricing-formulas/src/pricing_formulas/layers/guardrails.py:62-98 | The published, rounded price is never below a whole-cent cost while netting is at most cost * (p + m). |
| `ChannelPrices.ChannelProfitIsGuaranteed` | libs/pricing-formulas/src/pricing_formulas/engine.py:424-445 | The profit guarantee for every channel's price, whose netting covers the channel's commission only. |
| `PublishBatch.Publish` | services/market-ingestor/src/market_ingestor/kinesis.py:27-65 | At most max_retries + 1 sends for any failure pattern; the batch is, as a multiset, what was accepted plus what was dropped; each resend is exactly the failures of the send before; records are dropped only after the last of max(max_retries, 0) + 1 sends. |
| `PublishBatch.ResendsAreSubsequences` | services/market-ingestor/src/market_ingestor/kinesis.py:40-65 | Every resend is an order-preserving part of every earlier send. |
| `PublishBatch.MarkedExactly` | services/market-ingestor/src/market_ingestor/kinesis.py:40-60 | What is resent is read off the send at exactly the failed positions, what counts as accepted at exactly the others, in order. |
| `MarketPulse.MergeOfFolds` | streaming/market-pulse-job/src/market_pulse_job/market_pulse.py:48-84 | Merging the folds of two parts is the fold of the whole. |
| `MarketPulse.GroupingsAgree` | streaming/market-pulse-job/src/market_pulse_job/market_pulse.py:45-84 | Any splitting, ordering and merging of the same events gives the same accumulator and result. |
| `MarketPulse.ExtremesAreAttained` | streaming/market-pulse-job/src/market_pulse_job/market_pulse.py:48-60 | The extremes are rates of the window, and no rate is beyond them. |
| `MarketPulse.AverageIsBetweenExtremes` | streaming/market-pulse-job/src/market_pulse_job/market_pulse.py:62-71 | With positive weights a non-empty window has a result, and min <= weighted average <= max. |
| `MarketPulse.PulseExactly` | streaming/market-pulse-job/src/market_pulse_job/market_pulse.py:48-84 | However a window was folded and merged, its average times the weights is the sum of rate times weight, its extremes are attained bounds, and its count is that of the events. |

## Left out

- Flink, Kafka, Kinesis, DynamoDB, Iceberg: state is maps, a timer set, a shard with a cursor, a table with separate delete and append; their own checkpointing, watermarks, windows and TTL are not part of this model.
- Binary floating point: amounts are reals, so the rounding error of a float operation is not modelled; `round` is.
- LakehouseConsumer.Consumer.Poll: does not model a stream that moves inside one call of process_shard_once, because a run of the protocol already interleaves passes, crashes and stream steps between any two of its steps.
- LakehouseProgress.PollAtRest: models the endless loop as any number of passes over closed shards that are all still listed, because a stream that keeps growing never runs out and an expired shard can no longer be read; it assumes that a read returns something where something is left, because the service may answer with nothing.
- LakehouseProtocol.Cursor: does not model an expired checkpoint or iterator, because the source does not handle one.
- `describe_stream` pagination: the source reads one page; a listing may therefore be any part of the retained shards here.
- CostHistory.AggregateOfPrunedIsAggregateOfFull: asks that pruned lines be older than some held one, because upserts that move lines to earlier periods can lose lines in the source (CostEnrichment.LoweringLosesLines).
- PriceDecisions.BuildPriceDecision: does not model decision components and labels, the cost breakdown, decision ids and the stay candidate, because they are carried along and decide nothing.
- ChannelPrices.ChannelProfitIsGuaranteed: assumes that the other percentage costs' exact netting is not negative, because the source leaves that netting out of a channel's price.
- LengthOfStay.RecommendationIsTheThreshold: assumes p + m < 1 and a non-negative booking cost, because the floor has no meaning otherwise.
- CompanyCost.InvoiceIsConserved: is per occurrence, because occurrences are not filtered by billing period in the source.
- A channel outside the commission table (the source fails on one), malformed weight JSON and unknown quality tiers (the source fails on both).
- Stages A0, A2 and C (line enrichment, owner contracts, manual overrides), `transform.py` and the pydantic schemas: joins and one-branch readings of the same shape as the stages modelled.
- The market pulse sink's retry, the window metadata and the filter for blended snapshots.
- Streamlit pages, marts, settings, logging, job wiring, the bridge, the dbt runner, compaction, SQL migrations and random data generators.
- Backoff sleeps and poll intervals: time passes between steps and nothing else.
