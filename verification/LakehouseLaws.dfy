/** What every run of the ingestion protocol keeps, crashes included: exactly-once effect in the
    table, and parents merged before their children. */
module LakehouseLaws {
  import opened Wrappers
  import opened Listings
  import opened ShardOrder
  import opened LakehouseProtocol

  // ---------------------------------------------------------------- invariant

  /** Distinct records carry distinct decision ids. */
  ghost predicate IdsDistinct(s: System) {
    forall sid, i, sid', i' ::
      Holds(s, sid, i) && Holds(s, sid', i')
      && RecordAt(s, sid, i).newImage.Some? && RecordAt(s, sid', i').newImage.Some?
      && RecordAt(s, sid, i).newImage.value.decisionId == RecordAt(s, sid', i').newImage.value.decisionId
      ==> sid == sid' && i == i'
  }

  ghost predicate StreamOk(s: System) {
    && (forall sid :: sid in s.stream ==>
          && s.stream[sid].info.id == sid
          && Increasing(s.stream[sid].records)
          && (s.stream[sid].info.parent.Some? ==> s.stream[sid].info.parent.value in s.stream))
    && s.retained <= s.stream.Keys
    && IdsDistinct(s)
  }

  /** The row is the image of this record, whenever it was ingested. */
  predicate IsImageOf(row: Row, record: StreamRecord) {
    record.newImage == Some(row.image) && record.eventName == row.eventName
  }

  ghost predicate FromStream(s: System, row: Row) {
    exists sid, i :: Holds(s, sid, i) && IsImageOf(row, RecordAt(s, sid, i))
  }

  ghost predicate Present(table: seq<Row>, record: StreamRecord) {
    exists k :: 0 <= k < |table| && IsImageOf(table[k], record)
  }

  ghost predicate TableOk(s: System) {
    && UniqueIds(s.table)
    && (forall row :: row in s.table ==> FromStream(s, row))
    && (forall sid, i :: Holds(s, sid, i) && RecordAt(s, sid, i).newImage.Some? && Covered(s, sid, i) ==>
          Present(s.table, RecordAt(s, sid, i)))
  }

  ghost predicate CheckpointsOk(s: System) {
    forall sid :: sid in s.checkpoints ==>
      exists i :: Holds(s, sid, i) && RecordAt(s, sid, i).sequenceNumber == s.checkpoints[sid]
  }

  /** Closed, with every record checkpointed. */
  ghost predicate Exhausted(s: System, sid: ShardId) {
    && sid in s.stream && s.stream[sid].closed
    && forall i :: Holds(s, sid, i) ==> Covered(s, sid, i)
  }

  ghost predicate PhaseOk(s: System) {
    && BatchInRange(s)
    && (!s.phase.Idle? ==> s.todo != [] && s.todo[0] == s.phase.shard)
    && (Working(s) ==>
          && (forall i :: Holds(s, s.phase.shard, i) ==> (Covered(s, s.phase.shard, i) <==> i < s.phase.lo))
          && (s.phase.atEnd ==> s.stream[s.phase.shard].closed && s.phase.hi == |s.stream[s.phase.shard].records|))
    && (s.phase.Deleted? ==> forall row :: row in s.table ==> row.image.decisionId !in IdsOf(BatchRows(s)))
    && (s.phase.Appended? ==>
          forall i :: s.phase.lo <= i < s.phase.hi && RecordAt(s, s.phase.shard, i).newImage.Some? ==>
                        Present(s.table, RecordAt(s, s.phase.shard, i)))
    && (s.phase.Checkpointed? && s.phase.atEnd ==> Exhausted(s, s.phase.shard))
  }

  /** No shard is queued while a listed parent of it is not drained. */
  ghost predicate QueueOk(s: System) {
    && (forall sid :: sid in s.drained ==> Exhausted(s, sid))
    && (forall sid :: sid in s.todo ==>
          && sid in s.stream
          && (s.stream[sid].info.parent.Some? && s.stream[sid].info.parent.value in s.listing ==>
                s.stream[sid].info.parent.value in s.drained))
  }

  ghost predicate Inv(s: System) {
    StreamOk(s) && TableOk(s) && CheckpointsOk(s) && PhaseOk(s) && QueueOk(s)
  }

  // ---------------------------------------------------------------- steps of the stream

  /** s' is s with shards opened or closed, or records appended to open shards. */
  ghost predicate Grows(s: System, s': System) {
    && s' == s.(stream := s'.stream, retained := s'.retained)
    && (forall sid :: sid in s.stream ==>
          && sid in s'.stream
          && s'.stream[sid].info == s.stream[sid].info
          && (s.stream[sid].closed ==> s'.stream[sid].closed && s'.stream[sid].records == s.stream[sid].records)
          && s.stream[sid].records <= s'.stream[sid].records)
  }

  lemma GrowthKeepsRecords(s: System, s': System, sid: ShardId, i: int)
    requires Grows(s, s') && Holds(s, sid, i)
    ensures Holds(s', sid, i) && RecordAt(s', sid, i) == RecordAt(s, sid, i)
    ensures Covered(s', sid, i) == Covered(s, sid, i)
  {
  }

  /** A record that was not there before is after the shard's checkpoint. */
  lemma NewRecordsUncovered(s: System, s': System, sid: ShardId, i: int)
    requires Inv(s) && StreamOk(s') && Grows(s, s') && Holds(s', sid, i) && !Holds(s, sid, i)
    ensures !Covered(s', sid, i)
  {
    if sid in s.checkpoints {
      var j :| Holds(s, sid, j) && RecordAt(s, sid, j).sequenceNumber == s.checkpoints[sid];
      GrowthKeepsRecords(s, s', sid, j);
      assert Increasing(s'.stream[sid].records);
      assert j < i;
    }
  }

  lemma GrowthKeepsExhausted(s: System, s': System, sid: ShardId)
    requires Grows(s, s') && Exhausted(s, sid)
    ensures Exhausted(s', sid)
  {
    forall i | Holds(s', sid, i) ensures Covered(s', sid, i) {
      assert Holds(s, sid, i) && Covered(s, sid, i);
    }
  }

  lemma GrowthKeepsTable(s: System, s': System)
    requires Inv(s) && StreamOk(s') && Grows(s, s')
    ensures TableOk(s') && CheckpointsOk(s')
  {
    forall row | row in s'.table ensures FromStream(s', row) {
      var sid, i :| Holds(s, sid, i) && IsImageOf(row, RecordAt(s, sid, i));
      GrowthKeepsRecords(s, s', sid, i);
    }
    forall sid, i | Holds(s', sid, i) && RecordAt(s', sid, i).newImage.Some? && Covered(s', sid, i)
      ensures Present(s'.table, RecordAt(s', sid, i))
    {
      if Holds(s, sid, i) {
        GrowthKeepsRecords(s, s', sid, i);
      } else {
        NewRecordsUncovered(s, s', sid, i);
      }
    }
    forall sid | sid in s'.checkpoints
      ensures exists i :: Holds(s', sid, i) && RecordAt(s', sid, i).sequenceNumber == s'.checkpoints[sid]
    {
      var i :| Holds(s, sid, i) && RecordAt(s, sid, i).sequenceNumber == s.checkpoints[sid];
      GrowthKeepsRecords(s, s', sid, i);
    }
  }

  lemma GrowthKeepsPhase(s: System, s': System)
    requires Inv(s) && StreamOk(s') && Grows(s, s')
    ensures PhaseOk(s') && QueueOk(s')
  {
    if Working(s) {
      var sid := s.phase.shard;
      assert Slice(s', sid, s.phase.lo, s.phase.hi) == Slice(s, sid, s.phase.lo, s.phase.hi);
      forall i | Holds(s', sid, i) ensures Covered(s', sid, i) <==> i < s.phase.lo {
        if Holds(s, sid, i) {
          GrowthKeepsRecords(s, s', sid, i);
        } else {
          NewRecordsUncovered(s, s', sid, i);
        }
      }
    }
    if s.phase.Appended? {
      forall i | s.phase.lo <= i < s.phase.hi && RecordAt(s', s.phase.shard, i).newImage.Some?
        ensures Present(s'.table, RecordAt(s', s.phase.shard, i))
      {
        GrowthKeepsRecords(s, s', s.phase.shard, i);
      }
    }
    if s.phase.Checkpointed? && s.phase.atEnd {
      GrowthKeepsExhausted(s, s', s.phase.shard);
    }
    forall sid | sid in s'.drained ensures Exhausted(s', sid) {
      GrowthKeepsExhausted(s, s', sid);
    }
  }

  lemma ProduceKeepsStream(s: System, sid: ShardId, record: StreamRecord)
    requires Inv(s) && Enabled(s, Produce(sid, record))
    ensures StreamOk(Next(s, Produce(sid, record))) && Grows(s, Next(s, Produce(sid, record)))
  {
    var s' := Next(s, Produce(sid, record));
    var last := |s.stream[sid].records|;
    forall a, i, b, j | Holds(s', a, i) && Holds(s', b, j)
                        && RecordAt(s', a, i).newImage.Some? && RecordAt(s', b, j).newImage.Some?
                        && RecordAt(s', a, i).newImage.value.decisionId == RecordAt(s', b, j).newImage.value.decisionId
      ensures a == b && i == j
    {
      assert (a == sid && i == last) || (Holds(s, a, i) && RecordAt(s, a, i) == RecordAt(s', a, i));
      assert (b == sid && j == last) || (Holds(s, b, j) && RecordAt(s, b, j) == RecordAt(s', b, j));
    }
  }

  lemma ShardStepKeepsStream(s: System, step: Step)
    requires Inv(s) && Enabled(s, step) && (step.OpenShard? || step.CloseShard? || step.ExpireShard?)
    ensures StreamOk(Next(s, step)) && Grows(s, Next(s, step))
  {
    var s' := Next(s, step);
    forall a, i, b, j | Holds(s', a, i) && Holds(s', b, j)
                        && RecordAt(s', a, i).newImage.Some? && RecordAt(s', b, j).newImage.Some?
                        && RecordAt(s', a, i).newImage.value.decisionId == RecordAt(s', b, j).newImage.value.decisionId
      ensures a == b && i == j
    {
      assert Holds(s, a, i) && RecordAt(s, a, i) == RecordAt(s', a, i);
      assert Holds(s, b, j) && RecordAt(s, b, j) == RecordAt(s', b, j);
    }
  }

  lemma StreamStepKeepsInv(s: System, step: Step)
    requires Inv(s) && Enabled(s, step) && (step.Produce? || step.OpenShard? || step.CloseShard? || step.ExpireShard?)
    ensures Inv(Next(s, step))
  {
    if step.Produce? {
      ProduceKeepsStream(s, step.shard, step.record);
    } else {
      ShardStepKeepsStream(s, step);
    }
    GrowthKeepsTable(s, Next(s, step));
    GrowthKeepsPhase(s, Next(s, step));
  }

  // ---------------------------------------------------------------- steps of the consumer

  lemma SameRecords(s: System, s': System)
    requires StreamOk(s) && s'.stream == s.stream && s'.retained == s.retained
    ensures StreamOk(s')
    ensures forall sid, i :: Holds(s', sid, i) <==> Holds(s, sid, i)
    ensures forall sid, i :: Holds(s, sid, i) ==> RecordAt(s', sid, i) == RecordAt(s, sid, i)
  {
    assert IdsDistinct(s') by {
      forall a, i, b, j | Holds(s', a, i) && Holds(s', b, j)
                          && RecordAt(s', a, i).newImage.Some? && RecordAt(s', b, j).newImage.Some?
                          && RecordAt(s', a, i).newImage.value.decisionId ==
                             RecordAt(s', b, j).newImage.value.decisionId
        ensures a == b && i == j
      {
        assert Holds(s, a, i) && Holds(s, b, j);
      }
    }
  }

  lemma CrashKeepsInv(s: System)
    requires Inv(s)
    ensures Inv(Next(s, Crash))
  {
    SameDurable(s, Next(s, Crash));
  }

  /** The clauses on the table and the checkpoints read nothing of the consumer's memory. */
  lemma SameDurable(s: System, s': System)
    requires StreamOk(s) && TableOk(s) && CheckpointsOk(s)
    requires s' == s.(drained := s'.drained, listing := s'.listing, todo := s'.todo, phase := s'.phase)
    ensures StreamOk(s') && TableOk(s') && CheckpointsOk(s')
    ensures forall sid, i :: Holds(s, sid, i) ==> Covered(s', sid, i) == Covered(s, sid, i)
    ensures forall sid :: Exhausted(s', sid) <==> Exhausted(s, sid)
  {
    SameRecords(s, s');
    forall row | row in s'.table ensures FromStream(s', row) {
      var sid, i :| Holds(s, sid, i) && IsImageOf(row, RecordAt(s, sid, i));
      assert Holds(s', sid, i);
    }
    forall sid | sid in s'.checkpoints
      ensures exists i :: Holds(s', sid, i) && RecordAt(s', sid, i).sequenceNumber == s'.checkpoints[sid]
    {
      var i :| Holds(s, sid, i) && RecordAt(s, sid, i).sequenceNumber == s.checkpoints[sid];
      assert Holds(s', sid, i);
    }
    forall sid ensures Exhausted(s', sid) <==> Exhausted(s, sid) {
      if Exhausted(s, sid) {
        forall i | Holds(s', sid, i) ensures Covered(s', sid, i) { assert Holds(s, sid, i); }
      }
      if Exhausted(s', sid) {
        forall i | Holds(s, sid, i) ensures Covered(s, sid, i) { assert Holds(s', sid, i); }
      }
    }
  }

  lemma BeginPassKeepsInv(s: System, shards: seq<ShardInfo>)
    requires Inv(s) && Enabled(s, BeginPass(shards))
    ensures Inv(Next(s, BeginPass(shards)))
  {
    var s' := Next(s, BeginPass(shards));
    SameDurable(s, s');
    var ready := ReadyShards(shards, s.drained);
    forall sid | sid in s'.todo
      ensures sid in s'.stream
      ensures s'.stream[sid].info.parent.Some? && s'.stream[sid].info.parent.value in s'.listing ==>
                s'.stream[sid].info.parent.value in s'.drained
    {
      var k :| 0 <= k < |ready| && ready[k].id == sid;
      assert ready[k] in ready;
      ReadyExactly(shards, s.drained, ready[k]);
      var j :| 0 <= j < |shards| && shards[j] == ready[k];
    }
  }

  /** The cursor separates the checkpointed records from the rest. */
  lemma CursorSplits(s: System, sid: ShardId, i: int)
    requires StreamOk(s) && Holds(s, sid, i)
    ensures Covered(s, sid, i) <==> i < Cursor(s.stream[sid].records, Get(s.checkpoints, sid))
  {
    var k := Cursor(s.stream[sid].records, Get(s.checkpoints, sid));
    if i + 1 < k {
      assert Increasing(s.stream[sid].records);
    }
  }

  lemma FetchKeepsInv(s: System, count: nat, at: int, atEnd: bool)
    requires Inv(s) && Enabled(s, Fetch(count, at, atEnd))
    ensures Inv(Next(s, Fetch(count, at, atEnd)))
  {
    var s' := Next(s, Fetch(count, at, atEnd));
    var sid := s.todo[0];
    SameDurable(s, s');
    forall i | Holds(s, sid, i)
      ensures Covered(s, sid, i) <==> i < Cursor(s.stream[sid].records, Get(s.checkpoints, sid))
    {
      CursorSplits(s, sid, i);
    }
    if count == 0 && atEnd {
      assert Exhausted(s, sid);
    }
  }

  lemma FinishKeepsInv(s: System)
    requires Inv(s) && Enabled(s, Finish)
    ensures Inv(Next(s, Finish))
  {
    var s' := Next(s, Finish);
    SameDurable(s, s');
    forall sid | sid in s'.todo ensures sid in s.todo {
      var k :| 0 <= k < |s'.todo| && s'.todo[k] == sid;
      assert s.todo[k + 1] == sid;
    }
  }

  // ---------------------------------------------------------------- delete, append, checkpoint

  /** Every row of the batch is the image of one of its records. */
  lemma BatchRowOf(s: System, row: Row) returns (i: int)
    requires Working(s) && BatchInRange(s) && row in BatchRows(s)
    ensures s.phase.lo <= i < s.phase.hi && IsImageOf(row, RecordAt(s, s.phase.shard, i))
  {
    var batch := Slice(s, s.phase.shard, s.phase.lo, s.phase.hi);
    var k :| 0 <= k < |batch| && batch[k].newImage == Some(row.image) && batch[k].eventName == row.eventName;
    i := s.phase.lo + k;
  }

  lemma BatchHasRow(s: System, i: int)
    requires Working(s) && BatchInRange(s) && s.phase.lo <= i < s.phase.hi
    requires RecordAt(s, s.phase.shard, i).newImage.Some?
    ensures exists row :: row in BatchRows(s) && IsImageOf(row, RecordAt(s, s.phase.shard, i))
  {
    var batch := Slice(s, s.phase.shard, s.phase.lo, s.phase.hi);
    var record := batch[i - s.phase.lo];
    assert Row(record.newImage.value, record.eventName, s.phase.at) in BatchRows(s);
  }

  /** A table that changed only in rows of the current batch still shows every checkpointed record. */
  lemma DeleteKeepsInv(s: System)
    requires Inv(s) && Enabled(s, Delete)
    ensures Inv(Next(s, Delete))
  {
    var s' := Next(s, Delete);
    var ids := IdsOf(BatchRows(s));
    var keep := (row: Row) => row.image.decisionId !in ids;
    SameRecords(s, s');
    FilterKeepsUniqueIds(s.table, keep);
    assert s'.table == Filter(s.table, keep);
    forall row | row in s'.table ensures FromStream(s', row) {
      var sid, i :| Holds(s, sid, i) && IsImageOf(row, RecordAt(s, sid, i));
      assert Holds(s', sid, i);
    }
    forall sid, i | Holds(s', sid, i) && RecordAt(s', sid, i).newImage.Some? && Covered(s', sid, i)
      ensures Present(s'.table, RecordAt(s', sid, i))
    {
      SurvivesDelete(s, sid, i);
    }
    CheckpointsUntouched(s, s');
    assert BatchRows(s') == BatchRows(s);
  }

  /** A checkpointed record is none of the batch, so its id is none of the batch's. */
  lemma CoveredIsNotInBatch(s: System, sid: ShardId, i: int)
    requires Inv(s) && Working(s) && Holds(s, sid, i) && RecordAt(s, sid, i).newImage.Some? && Covered(s, sid, i)
    ensures RecordAt(s, sid, i).newImage.value.decisionId !in IdsOf(BatchRows(s))
  {
    var rows := BatchRows(s);
    forall b | 0 <= b < |rows| ensures rows[b].image.decisionId != RecordAt(s, sid, i).newImage.value.decisionId {
      assert rows[b] in rows;
      var j := BatchRowOf(s, rows[b]);
      assert IdsDistinct(s) && Holds(s, s.phase.shard, j);
    }
  }

  lemma SurvivesDelete(s: System, sid: ShardId, i: int)
    requires Inv(s) && Enabled(s, Delete) && Holds(s, sid, i) && RecordAt(s, sid, i).newImage.Some?
             && Covered(s, sid, i)
    ensures Present(Next(s, Delete).table, RecordAt(s, sid, i))
  {
    var k :| 0 <= k < |s.table| && IsImageOf(s.table[k], RecordAt(s, sid, i));
    CoveredIsNotInBatch(s, sid, i);
    assert s.table[k] in s.table;
    PresentIn(Next(s, Delete).table, s.table[k], RecordAt(s, sid, i));
  }

  /** Steps that leave the stream and the checkpoints alone leave their agreement alone. */
  lemma CheckpointsUntouched(s: System, s': System)
    requires StreamOk(s) && CheckpointsOk(s) && QueueOk(s)
    requires s' == s.(table := s'.table, phase := s'.phase)
    ensures CheckpointsOk(s') && QueueOk(s')
    ensures forall sid :: Exhausted(s, sid) ==> Exhausted(s', sid)
  {
    SameRecords(s, s');
    forall sid | sid in s'.checkpoints
      ensures exists i :: Holds(s', sid, i) && RecordAt(s', sid, i).sequenceNumber == s'.checkpoints[sid]
    {
      var i :| Holds(s, sid, i) && RecordAt(s, sid, i).sequenceNumber == s.checkpoints[sid];
      assert Holds(s', sid, i);
    }
    forall sid | Exhausted(s, sid) ensures Exhausted(s', sid) {
      forall i | Holds(s', sid, i) ensures Covered(s', sid, i) { assert Holds(s, sid, i); }
    }
  }

  /** No two records of the batch carry the same id. */
  ghost predicate DistinctImages(batch: seq<StreamRecord>) {
    forall i, j :: 0 <= i < j < |batch| && batch[i].newImage.Some? && batch[j].newImage.Some? ==>
      batch[i].newImage.value.decisionId != batch[j].newImage.value.decisionId
  }

  lemma {:induction false} DistinctImagesDistinctRows(batch: seq<StreamRecord>, at: int)
    requires DistinctImages(batch)
    ensures UniqueIds(RowsOf(batch, at))
  {
    if batch != [] {
      var front, last := batch[..|batch| - 1], batch[|batch| - 1];
      DistinctImagesDistinctRows(front, at);
      if last.newImage.Some? {
        var rows := RowsOf(front, at);
        forall k | 0 <= k < |rows| ensures rows[k].image.decisionId != last.newImage.value.decisionId {
          assert rows[k] in rows;
          var i :| 0 <= i < |front| && front[i].newImage == Some(rows[k].image)
            && front[i].eventName == rows[k].eventName;
        }
      }
    }
  }

  lemma SliceHasDistinctImages(s: System, sid: ShardId, lo: nat, hi: nat)
    requires IdsDistinct(s) && sid in s.stream && lo <= hi <= |s.stream[sid].records|
    ensures DistinctImages(Slice(s, sid, lo, hi))
  {
    var batch := Slice(s, sid, lo, hi);
    forall i, j | 0 <= i < j < |batch| && batch[i].newImage.Some? && batch[j].newImage.Some?
      ensures batch[i].newImage.value.decisionId != batch[j].newImage.value.decisionId
    {
      assert Holds(s, sid, lo + i) && Holds(s, sid, lo + j);
      assert RecordAt(s, sid, lo + i) == batch[i] && RecordAt(s, sid, lo + j) == batch[j];
    }
  }

  lemma BatchIdsDistinct(s: System, sid: ShardId, lo: nat, hi: nat, at: int)
    requires StreamOk(s) && sid in s.stream && lo <= hi <= |s.stream[sid].records|
    ensures UniqueIds(RowsOf(Slice(s, sid, lo, hi), at))
  {
    SliceHasDistinctImages(s, sid, lo, hi);
    DistinctImagesDistinctRows(Slice(s, sid, lo, hi), at);
  }

  lemma AppendedTable(s: System)
    requires Inv(s) && Enabled(s, Append)
    ensures UniqueIds(Next(s, Append).table)
    ensures forall row :: row in Next(s, Append).table <==> row in s.table || row in BatchRows(s)
  {
    BatchIdsDistinct(s, s.phase.shard, s.phase.lo, s.phase.hi, s.phase.at);
    var rows := BatchRows(s);
    forall i, j | 0 <= i < |s.table| && 0 <= j < |rows|
      ensures s.table[i].image.decisionId != rows[j].image.decisionId
    {
      assert rows[j].image.decisionId in IdsOf(rows) && s.table[i] in s.table;
    }
  }

  lemma PresentIn(table: seq<Row>, row: Row, record: StreamRecord)
    requires row in table && IsImageOf(row, record)
    ensures Present(table, record)
  {
  }

  lemma AppendKeepsInv(s: System)
    requires Inv(s) && Enabled(s, Append)
    ensures Inv(Next(s, Append))
  {
    var s' := Next(s, Append);
    SameRecords(s, s');
    AppendedTable(s);
    forall row | row in s'.table ensures FromStream(s', row) {
      if row in s.table {
        var sid, i :| Holds(s, sid, i) && IsImageOf(row, RecordAt(s, sid, i));
        assert Holds(s', sid, i);
      } else {
        var i := BatchRowOf(s, row);
        assert Holds(s', s.phase.shard, i);
      }
    }
    forall sid, i | Holds(s', sid, i) && RecordAt(s', sid, i).newImage.Some? && Covered(s', sid, i)
      ensures Present(s'.table, RecordAt(s', sid, i))
    {
      assert Holds(s, sid, i) && Covered(s, sid, i);
      var k :| 0 <= k < |s.table| && IsImageOf(s.table[k], RecordAt(s, sid, i));
      PresentIn(s'.table, s.table[k], RecordAt(s, sid, i));
    }
    forall i | s.phase.lo <= i < s.phase.hi && RecordAt(s', s.phase.shard, i).newImage.Some?
      ensures Present(s'.table, RecordAt(s', s.phase.shard, i))
    {
      BatchHasRow(s, i);
      var row :| row in BatchRows(s) && IsImageOf(row, RecordAt(s, s.phase.shard, i));
      PresentIn(s'.table, row, RecordAt(s, s.phase.shard, i));
    }
    CheckpointsUntouched(s, s');
  }

  /** The new checkpoint covers exactly what was covered and the batch. */
  lemma CheckpointCovers(s: System, sid: ShardId, i: int)
    requires Inv(s) && Enabled(s, PutCheckpoint) && Holds(s, sid, i)
    ensures Covered(Next(s, PutCheckpoint), sid, i) <==>
            Covered(s, sid, i) || (sid == s.phase.shard && i < s.phase.hi)
  {
    if sid == s.phase.shard {
      assert Increasing(s.stream[sid].records);
      assert Covered(s, sid, i) <==> i < s.phase.lo;
    }
  }

  lemma CheckpointKeepsInv(s: System)
    requires Inv(s) && Enabled(s, PutCheckpoint)
    ensures Inv(Next(s, PutCheckpoint))
  {
    var s' := Next(s, PutCheckpoint);
    SameRecords(s, s');
    forall row | row in s'.table ensures FromStream(s', row) {
      var sid, i :| Holds(s, sid, i) && IsImageOf(row, RecordAt(s, sid, i));
      assert Holds(s', sid, i);
    }
    forall sid, i | Holds(s', sid, i) && RecordAt(s', sid, i).newImage.Some? && Covered(s', sid, i)
      ensures Present(s'.table, RecordAt(s', sid, i))
    {
      assert Holds(s, sid, i);
      CheckpointCovers(s, sid, i);
      if !Covered(s, sid, i) {
        assert s.phase.lo <= i < s.phase.hi;
      }
    }
    forall sid | sid in s'.checkpoints
      ensures exists i :: Holds(s', sid, i) && RecordAt(s', sid, i).sequenceNumber == s'.checkpoints[sid]
    {
      if sid == s.phase.shard {
        assert Holds(s', sid, s.phase.hi - 1);
      } else {
        var i :| Holds(s, sid, i) && RecordAt(s, sid, i).sequenceNumber == s.checkpoints[sid];
        assert Holds(s', sid, i);
      }
    }
    forall sid | Exhausted(s, sid) || (sid == s.phase.shard && s.phase.atEnd) ensures Exhausted(s', sid) {
      forall i | Holds(s', sid, i) ensures Covered(s', sid, i) {
        assert Holds(s, sid, i);
        CheckpointCovers(s, sid, i);
      }
    }
  }

  // ---------------------------------------------------------------- every run

  lemma InvStep(s: System, step: Step)
    requires Inv(s) && Enabled(s, step)
    ensures Inv(Next(s, step))
  {
    match step
    case Produce(_, _) => StreamStepKeepsInv(s, step);
    case OpenShard(_, _) => StreamStepKeepsInv(s, step);
    case CloseShard(_) => StreamStepKeepsInv(s, step);
    case ExpireShard(_) => StreamStepKeepsInv(s, step);
    case Crash => CrashKeepsInv(s);
    case BeginPass(shards) => BeginPassKeepsInv(s, shards);
    case Fetch(count, at, atEnd) => FetchKeepsInv(s, count, at, atEnd);
    case Delete => DeleteKeepsInv(s);
    case Append => AppendKeepsInv(s);
    case PutCheckpoint => CheckpointKeepsInv(s);
    case Finish => FinishKeepsInv(s);
  }

  lemma {:induction false} InvAlong(states: seq<System>)
    requires IsRun(states) && Inv(states[0])
    ensures Inv(states[|states| - 1])
  {
    if |states| > 1 {
      var front := states[..|states| - 1];
      assert IsRun(front) by {
        forall k | 0 <= k < |front| - 1 ensures Linked(front[k], front[k + 1]) {
          assert Linked(states[k], states[k + 1]);
        }
      }
      InvAlong(front);
      assert Linked(states[|states| - 2], states[|states| - 2 + 1]);
      var step :| Enabled(states[|states| - 2], step) && states[|states| - 1] == Next(states[|states| - 2], step);
      InvStep(states[|states| - 2], step);
    }
  }

  lemma ReachableStep(s: System, step: Step)
    requires Reachable(s) && Enabled(s, step)
    ensures Reachable(Next(s, step))
  {
    var states :| IsRun(states) && states[0] == INIT && states[|states| - 1] == s;
    var longer := states + [Next(s, step)];
    assert Linked(s, Next(s, step));
    forall k | 0 <= k < |longer| - 1 ensures Linked(longer[k], longer[k + 1]) {
      if k < |states| - 1 {
        assert Linked(states[k], states[k + 1]);
      }
    }
    assert IsRun(longer) && longer[0] == INIT && longer[|longer| - 1] == Next(s, step);
  }

  lemma InvHolds(s: System)
    requires Reachable(s)
    ensures Inv(s)
  {
    var states :| IsRun(states) && states[0] == INIT && states[|states| - 1] == s;
    InvAlong(states);
  }

  /** Exactly once: in every reachable state, crashes anywhere, no decision id has two rows, every
      checkpointed record with an image has its row, and every row is the image of a record. */
  lemma ExactlyOnce(s: System)
    requires Reachable(s)
    ensures UniqueIds(s.table)
    ensures forall sid, i :: Holds(s, sid, i) && RecordAt(s, sid, i).newImage.Some? && Covered(s, sid, i) ==>
                               Present(s.table, RecordAt(s, sid, i))
    ensures forall row :: row in s.table ==> FromStream(s, row)
  {
    InvHolds(s);
  }

  /** Once every record is checkpointed, the table is the stream's image up to ingested_at: a row for
      each record with an image, no other row, none twice. */
  lemma DrainedTableIsTheStream(s: System)
    requires Reachable(s) && forall sid, i :: Holds(s, sid, i) ==> Covered(s, sid, i)
    ensures UniqueIds(s.table)
    ensures forall sid, i :: Holds(s, sid, i) ==>
              (RecordAt(s, sid, i).newImage.Some? <==> Present(s.table, RecordAt(s, sid, i)))
    ensures forall row :: row in s.table ==> FromStream(s, row)
  {
    InvHolds(s);
  }

  /** A drained shard has nothing left: it is closed and every one of its records is checkpointed. */
  lemma DrainedMeansCheckpointed(s: System, sid: ShardId)
    requires Reachable(s) && sid in s.drained
    ensures Exhausted(s, sid)
  {
    InvHolds(s);
  }

  /** Parent before child: when a shard's records are appended to the table, either its parent was not
      in the listing the pass read, or the parent is closed, all its records are checkpointed, and
      each of them with an image is already in the table. Restarts do not matter. */
  lemma ParentBeforeChild(s: System, parent: ShardId)
    requires Reachable(s) && Enabled(s, Append)
    requires s.stream[s.phase.shard].info.parent == Some(parent) && parent in s.listing
    ensures Exhausted(s, parent)
    ensures forall i :: Holds(s, parent, i) && RecordAt(s, parent, i).newImage.Some? ==>
                          Present(s.table, RecordAt(s, parent, i))
  {
    InvHolds(s);
    assert s.phase.shard in s.todo;
  }
}
