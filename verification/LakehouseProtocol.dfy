/** Lakehouse ingestion as a protocol: a stream of shards that only grows, a table and a checkpoint
    store that survive crashes, and a consumer that does not. */
module LakehouseProtocol {
  import opened Wrappers
  import opened Listings
  import opened ShardOrder

  type DecisionId = string
  type SequenceNumber = nat

  const READ_LIMIT := 1000

  /** The part of a price decision that identifies it, and everything else. */
  datatype Image = Image(decisionId: DecisionId, payload: string)
  datatype StreamRecord = StreamRecord(sequenceNumber: SequenceNumber, eventName: string, newImage: Option<Image>)
  datatype Shard = Shard(info: ShardInfo, records: seq<StreamRecord>, closed: bool)
  datatype Row = Row(image: Image, eventName: string, ingestedAt: int)

  // ---------------------------------------------------------------- reading and merging

  /** A missing checkpoint reads from the start; a checkpoint resumes strictly after it. */
  predicate IsBefore(checkpoint: Option<SequenceNumber>, record: StreamRecord) {
    checkpoint.Some? && record.sequenceNumber <= checkpoint.value
  }

  /** How many leading records the iterator skips. */
  function Cursor(records: seq<StreamRecord>, checkpoint: Option<SequenceNumber>): (k: nat)
    ensures k <= |records|
    ensures k > 0 ==> IsBefore(checkpoint, records[k - 1])
    ensures forall i :: k <= i < |records| ==> !IsBefore(checkpoint, records[i])
  {
    if records == [] || IsBefore(checkpoint, records[|records| - 1]) then |records|
    else Cursor(records[..|records| - 1], checkpoint)
  }

  ghost predicate Increasing(records: seq<StreamRecord>) {
    forall i, j :: 0 <= i < j < |records| ==> records[i].sequenceNumber < records[j].sequenceNumber
  }

  function RowsOf(batch: seq<StreamRecord>, ingestedAt: int): (rows: seq<Row>)
    ensures forall row :: row in rows ==>
              exists i :: 0 <= i < |batch| && batch[i].newImage == Some(row.image)
                  && batch[i].eventName == row.eventName
    ensures forall i :: 0 <= i < |batch| && batch[i].newImage.Some? ==>
              Row(batch[i].newImage.value, batch[i].eventName, ingestedAt) in rows
  {
    if batch == [] then []
    else
      var front, last := batch[..|batch| - 1], batch[|batch| - 1];
      var rest := RowsOf(front, ingestedAt);
      if last.newImage.Some? then rest + [Row(last.newImage.value, last.eventName, ingestedAt)] else rest
  }

  function IdsOf(rows: seq<Row>): set<DecisionId> {
    set k | 0 <= k < |rows| :: rows[k].image.decisionId
  }

  function DeleteIds(table: seq<Row>, ids: set<DecisionId>): seq<Row> {
    Filter(table, (row: Row) => row.image.decisionId !in ids)
  }

  function MergeRows(table: seq<Row>, rows: seq<Row>): seq<Row> {
    DeleteIds(table, IdsOf(rows)) + rows
  }

  ghost predicate UniqueIds(rows: seq<Row>) {
    forall i, j :: 0 <= i < j < |rows| ==> rows[i].image.decisionId != rows[j].image.decisionId
  }

  lemma {:induction false} FilterKeepsUniqueIds(rows: seq<Row>, keep: Row -> bool)
    requires UniqueIds(rows)
    ensures UniqueIds(Filter(rows, keep))
  {
    if rows != [] {
      var front, last := rows[..|rows| - 1], rows[|rows| - 1];
      assert rows == front + [last];
      FilterKeepsUniqueIds(front, keep);
      forall row | row in Filter(front, keep) ensures row.image.decisionId != last.image.decisionId {
        assert row in front;
      }
    }
  }

  /** A merge never leaves two rows for one id, provided the batch itself does not repeat one:
      deleting first protects against earlier batches, not against the batch. */
  lemma MergeIsUniqueExactly(table: seq<Row>, rows: seq<Row>)
    requires UniqueIds(table)
    ensures UniqueIds(MergeRows(table, rows)) <==> UniqueIds(rows)
  {
    var kept := DeleteIds(table, IdsOf(rows));
    var merged := MergeRows(table, rows);
    FilterKeepsUniqueIds(table, (row: Row) => row.image.decisionId !in IdsOf(rows));
    forall i, j | 0 <= i < |kept| && 0 <= j < |rows| ensures kept[i].image.decisionId != rows[j].image.decisionId {
      assert kept[i] in kept;
      assert rows[j].image.decisionId in IdsOf(rows);
    }
    if UniqueIds(merged) {
      forall i, j | 0 <= i < j < |rows| ensures rows[i].image.decisionId != rows[j].image.decisionId {
        assert merged[|kept| + i] == rows[i] && merged[|kept| + j] == rows[j];
      }
    }
  }

  /** An id repeated inside one batch stays: two records of one decision leave two rows. */
  lemma RepeatedIdStays(image: Image, first: StreamRecord, second: StreamRecord, at: int)
    requires first.newImage == Some(image) && second.newImage == Some(image)
    ensures MergeRows([], RowsOf([first, second], at)) ==
            [Row(image, first.eventName, at), Row(image, second.eventName, at)]
    ensures !UniqueIds(MergeRows([], RowsOf([first, second], at)))
  {
    var batch := [first, second];
    assert batch[..1] == [first] && batch[..1][..0] == [];
    assert RowsOf(batch[..1], at) == [Row(image, first.eventName, at)];
    assert DeleteIds([], IdsOf(RowsOf(batch, at))) == [];
    var merged := MergeRows([], RowsOf(batch, at));
    assert merged[0].image.decisionId == merged[1].image.decisionId;
  }

  /** Reading resumes strictly after the record whose sequence number was checkpointed last, and the
      cursors of other shards stay where they were. */
  lemma ReadingResumesAfterPut(cursors: map<ShardId, SequenceNumber>, shard: ShardId, records: seq<StreamRecord>,
                               hi: nat)
    requires Increasing(records) && 0 < hi <= |records|
    ensures var put := cursors[shard := records[hi - 1].sequenceNumber];
            && Cursor(records, Get(put, shard)) == hi
            && forall other :: other != shard ==> Get(put, other) == Get(cursors, other)
  {
    var put := cursors[shard := records[hi - 1].sequenceNumber];
    var k := Cursor(records, Get(put, shard));
    assert IsBefore(Get(put, shard), records[hi - 1]);
    assert hi < |records| ==> !IsBefore(Get(put, shard), records[hi]);
  }

  // ---------------------------------------------------------------- the system

  /** Where the consumer is inside process_shard_once. */
  datatype Phase =
    | Idle
    | Fetched(shard: ShardId, lo: nat, hi: nat, at: int, atEnd: bool)
    | Deleted(shard: ShardId, lo: nat, hi: nat, at: int, atEnd: bool)
    | Appended(shard: ShardId, lo: nat, hi: nat, at: int, atEnd: bool)
    | Checkpointed(shard: ShardId, atEnd: bool)

  /** stream holds every shard ever opened, expired ones included; retained are those still listed.
      table and checkpoints are durable. drained, listing, todo and phase are the consumer's memory. */
  datatype System = System(
    stream: map<ShardId, Shard>,
    retained: set<ShardId>,
    table: seq<Row>,
    checkpoints: map<ShardId, SequenceNumber>,
    drained: set<ShardId>,
    listing: set<ShardId>,
    todo: seq<ShardId>,
    phase: Phase)

  const INIT := System(map[], {}, [], map[], {}, {}, [], Idle)

  datatype Step =
    | Produce(shard: ShardId, record: StreamRecord)
    | OpenShard(id: ShardId, parent: Option<ShardId>)
    | CloseShard(id: ShardId)
    | ExpireShard(id: ShardId)
    | Crash
    | BeginPass(shards: seq<ShardInfo>)
    | Fetch(count: nat, at: int, atEnd: bool)
    | Delete
    | Append
    | PutCheckpoint
    | Finish

  predicate Holds(s: System, sid: ShardId, i: int) {
    sid in s.stream && 0 <= i < |s.stream[sid].records|
  }

  function RecordAt(s: System, sid: ShardId, i: int): StreamRecord
    requires Holds(s, sid, i)
  {
    s.stream[sid].records[i]
  }

  /** The record's sequence number is at or before its shard's checkpoint. */
  predicate Covered(s: System, sid: ShardId, i: int)
    requires Holds(s, sid, i)
  {
    IsBefore(Get(s.checkpoints, sid), RecordAt(s, sid, i))
  }

  function Slice(s: System, sid: ShardId, lo: nat, hi: nat): seq<StreamRecord>
    requires sid in s.stream && lo <= hi <= |s.stream[sid].records|
  {
    s.stream[sid].records[lo..hi]
  }

  function Working(s: System): bool {
    s.phase.Fetched? || s.phase.Deleted? || s.phase.Appended?
  }

  predicate BatchInRange(s: System) {
    Working(s) ==> s.phase.shard in s.stream && s.phase.lo < s.phase.hi <= |s.stream[s.phase.shard].records|
  }

  function BatchRows(s: System): seq<Row>
    requires Working(s) && BatchInRange(s)
  {
    RowsOf(Slice(s, s.phase.shard, s.phase.lo, s.phase.hi), s.phase.at)
  }

  /** No record of the stream carries this id. */
  ghost predicate FreshId(s: System, id: DecisionId) {
    forall sid, i :: Holds(s, sid, i) && RecordAt(s, sid, i).newImage.Some? ==>
                       RecordAt(s, sid, i).newImage.value.decisionId != id
  }

  ghost predicate Enabled(s: System, step: Step) {
    match step
    case Produce(sid, record) =>
      && sid in s.stream && !s.stream[sid].closed
      && (forall i :: 0 <= i < |s.stream[sid].records| ==>
          s.stream[sid].records[i].sequenceNumber < record.sequenceNumber)
      && (record.newImage.Some? ==> FreshId(s, record.newImage.value.decisionId))
    case OpenShard(id, parent) => id !in s.stream && (parent.Some? ==> parent.value in s.stream)
    case CloseShard(id) => id in s.stream
    case ExpireShard(id) => id in s.retained
    case Crash => true
    case BeginPass(shards) =>
      && s.phase.Idle? && s.todo == []
      && (forall k :: 0 <= k < |shards| ==>
            shards[k].id in s.retained && shards[k].id in s.stream && s.stream[shards[k].id].info == shards[k])
    case Fetch(count, _, atEnd) =>
      && s.phase.Idle? && s.todo != [] && s.todo[0] in s.stream && count <= READ_LIMIT
      && var records := s.stream[s.todo[0]].records;
      && var lo := Cursor(records, Get(s.checkpoints, s.todo[0]));
      && lo + count <= |records|
      && (atEnd ==> s.stream[s.todo[0]].closed && lo + count == |records|)
    case Delete => s.phase.Fetched? && BatchInRange(s)
    case Append => s.phase.Deleted? && BatchInRange(s)
    case PutCheckpoint => s.phase.Appended? && BatchInRange(s)
    case Finish => s.phase.Checkpointed? && s.todo != []
  }

  function ShardIds(shards: seq<ShardInfo>): (ids: seq<ShardId>)
    ensures |ids| == |shards| && forall k :: 0 <= k < |shards| ==> ids[k] == shards[k].id
  {
    seq(|shards|, k requires 0 <= k < |shards| => shards[k].id)
  }

  ghost function Next(s: System, step: Step): System
    requires Enabled(s, step)
  {
    match step
    case Produce(sid, record) =>
      s.(stream := s.stream[sid := s.stream[sid].(records := s.stream[sid].records + [record])])
    case OpenShard(id, parent) =>
      s.(stream := s.stream[id := Shard(ShardInfo(id, parent), [], false)], retained := s.retained + {id})
    case CloseShard(id) => s.(stream := s.stream[id := s.stream[id].(closed := true)])
    case ExpireShard(id) => s.(retained := s.retained - {id})
    case Crash => s.(drained := {}, listing := {}, todo := [], phase := Idle)
    case BeginPass(shards) => s.(listing := Ids(shards), todo := ShardIds(ReadyShards(shards, s.drained)))
    case Fetch(count, at, atEnd) =>
      var sid := s.todo[0];
      var lo := Cursor(s.stream[sid].records, Get(s.checkpoints, sid));
      s.(phase := if count == 0 then Checkpointed(sid, atEnd) else Fetched(sid, lo, lo + count, at, atEnd))
    case Delete =>
      s.(table := DeleteIds(s.table, IdsOf(BatchRows(s))),
         phase := Deleted(s.phase.shard, s.phase.lo, s.phase.hi, s.phase.at, s.phase.atEnd))
    case Append =>
      s.(table := s.table + BatchRows(s),
         phase := Appended(s.phase.shard, s.phase.lo, s.phase.hi, s.phase.at, s.phase.atEnd))
    case PutCheckpoint =>
      var sid := s.phase.shard;
      s.(checkpoints := s.checkpoints[sid := s.stream[sid].records[s.phase.hi - 1].sequenceNumber],
         phase := Checkpointed(sid, s.phase.atEnd))
    case Finish =>
      s.(todo := s.todo[1..], phase := Idle,
         drained := if s.phase.atEnd then s.drained + {s.phase.shard} else s.drained)
  }

  /** A run is the list of its states, each one step after the one before. */
  ghost predicate Linked(s: System, s': System) {
    exists step :: Enabled(s, step) && s' == Next(s, step)
  }

  ghost predicate IsRun(states: seq<System>) {
    states != [] && forall k :: 0 <= k < |states| - 1 ==> Linked(states[k], states[k + 1])
  }

  ghost predicate Reachable(s: System) {
    exists states :: IsRun(states) && states[0] == INIT && states[|states| - 1] == s
  }
}
