/** The ingestion consumer in place: the table, the checkpoint store and the polling loop's body,
    every method of which is a run of protocol steps. */
module LakehouseConsumer {
  import opened Wrappers
  import opened Listings
  import opened ShardOrder
  import P = LakehouseProtocol
  import Laws = LakehouseLaws

  class IcebergTable {
    var rows: seq<P.Row>

    constructor ()
      ensures rows == []
    {
      rows := [];
    }

    method Delete(ids: set<P.DecisionId>)
      modifies this
      ensures rows == P.DeleteIds(old(rows), ids)
    {
      rows := P.DeleteIds(rows, ids);
    }

    method Append(batch: seq<P.Row>)
      modifies this
      ensures rows == old(rows) + batch
    {
      rows := rows + batch;
    }

    /** Deletes every row that shares an id with the batch, then appends the batch; nothing when the
        batch is empty. */
    method MergeRows(batch: seq<P.Row>)
      modifies this
      ensures rows == P.MergeRows(old(rows), batch)
    {
      if batch == [] {
        KeepAll(rows);
        return;
      }
      Delete(P.IdsOf(batch));
      Append(batch);
    }

    static lemma {:induction false} KeepAll(table: seq<P.Row>)
      ensures P.DeleteIds(table, {}) == table
      ensures P.MergeRows(table, []) == table
    {
      var none: set<P.DecisionId> := {};
      var keep := (row: P.Row) => row.image.decisionId !in none;
      FilterAll(table, keep);
      assert P.DeleteIds(table, none) == Filter(table, keep);
      var nothing: seq<P.Row> := [];
      assert P.IdsOf(nothing) == none;
    }
  }

  class CheckpointStore {
    var cursors: map<ShardId, P.SequenceNumber>

    constructor ()
      ensures cursors == map[]
    {
      cursors := map[];
    }

    method GetCheckpoint(shard: ShardId) returns (checkpoint: Option<P.SequenceNumber>)
      ensures checkpoint == Get(cursors, shard)
    {
      checkpoint := Get(cursors, shard);
    }

    method PutCheckpoint(shard: ShardId, sequenceNumber: P.SequenceNumber)
      modifies this
      ensures cursors == old(cursors)[shard := sequenceNumber]
    {
      cursors := cursors[shard := sequenceNumber];
    }
  }

  /** What GetRecords may return after a checkpoint: some records that follow it, at most the limit;
      the end of the shard is reported exactly when it is closed and nothing is left. */
  ghost predicate IsNext(shard: P.Shard, checkpoint: Option<P.SequenceNumber>, records: seq<P.StreamRecord>,
                         atEnd: bool)
  {
    var lo := P.Cursor(shard.records, checkpoint);
    && |records| <= 1000
    && lo + |records| <= |shard.records|
    && records == shard.records[lo..lo + |records|]
    && (atEnd <==> shard.closed && lo + |records| == |shard.records|)
  }

  class StreamsClient {
    var shards: map<ShardId, P.Shard>

    constructor ()
      ensures shards == map[]
    {
      shards := map[];
    }

    method GetRecords(shard: ShardId, checkpoint: Option<P.SequenceNumber>)
      returns (records: seq<P.StreamRecord>, atEnd: bool)
      requires shard in shards
      ensures IsNext(shards[shard], checkpoint, records, atEnd)
    {
      var all := shards[shard].records;
      var lo := P.Cursor(all, checkpoint);
      var count: nat :| count <= P.READ_LIMIT && lo + count <= |all|;
      records := all[lo..lo + count];
      atEnd := shards[shard].closed && lo + count == |all|;
    }
  }

  /** A shard queued in a reachable state is in the stream. */
  lemma Queued(s: P.System, shard: ShardId)
    requires P.Reachable(s) && shard in s.todo
    ensures shard in s.stream
  {
    Laws.InvHolds(s);
  }

  lemma DrainedAreExhausted(s: P.System)
    requires P.Reachable(s)
    ensures forall shard :: shard in s.drained ==> Laws.Exhausted(s, shard)
  {
    Laws.InvHolds(s);
  }

  lemma DeleteAndAppend(s: P.System, rows: seq<P.Row>) returns (appended: P.System)
    requires P.Reachable(s) && s.phase.Fetched? && P.BatchInRange(s) && rows == P.BatchRows(s)
    ensures P.Reachable(appended)
    ensures appended == s.(table := P.MergeRows(s.table, rows),
                           phase := P.Appended(s.phase.shard, s.phase.lo, s.phase.hi, s.phase.at, s.phase.atEnd))
  {
    var deleted := P.Next(s, P.Delete);
    Laws.ReachableStep(s, P.Delete);
    assert P.BatchRows(deleted) == rows;
    appended := P.Next(deleted, P.Append);
    Laws.ReachableStep(deleted, P.Append);
  }

  lemma CheckpointStep(s: P.System, last: P.SequenceNumber)
    requires P.Reachable(s) && s.phase.Appended? && P.BatchInRange(s)
    requires last == s.stream[s.phase.shard].records[s.phase.hi - 1].sequenceNumber
    ensures P.Reachable(s.(checkpoints := s.checkpoints[s.phase.shard := last],
                           phase := P.Checkpointed(s.phase.shard, s.phase.atEnd)))
  {
    Laws.ReachableStep(s, P.PutCheckpoint);
  }

  /** Delete, append and checkpoint of a fetched batch, as one change of the protocol state. */
  lemma MergeSteps(s: P.System, rows: seq<P.Row>, last: P.SequenceNumber)
    requires P.Reachable(s) && s.phase.Fetched? && P.BatchInRange(s)
    requires rows == P.BatchRows(s) && last == s.stream[s.phase.shard].records[s.phase.hi - 1].sequenceNumber
    ensures P.Reachable(s.(table := P.MergeRows(s.table, rows),
                           checkpoints := s.checkpoints[s.phase.shard := last],
                           phase := P.Checkpointed(s.phase.shard, s.phase.atEnd)))
  {
    var appended := DeleteAndAppend(s, rows);
    CheckpointStep(appended, last);
    assert appended.(checkpoints := s.checkpoints[s.phase.shard := last],
                     phase := P.Checkpointed(s.phase.shard, s.phase.atEnd)) ==
           s.(table := P.MergeRows(s.table, rows), checkpoints := s.checkpoints[s.phase.shard := last],
              phase := P.Checkpointed(s.phase.shard, s.phase.atEnd));
  }

  lemma FetchStep(s: P.System, shard: ShardId, records: seq<P.StreamRecord>, now: int, atEnd: bool)
    returns (fetched: P.System)
    requires P.Reachable(s) && s.phase.Idle? && s.todo != [] && s.todo[0] == shard && shard in s.stream
    requires IsNext(s.stream[shard], Get(s.checkpoints, shard), records, atEnd)
    ensures P.Reachable(fetched) && fetched == s.(phase := fetched.phase)
    ensures records == [] ==> fetched.phase == P.Checkpointed(shard, atEnd)
    ensures records != [] ==>
              && fetched.phase.Fetched? && fetched.phase.shard == shard && fetched.phase.at == now
                 && fetched.phase.atEnd == atEnd
              && P.BatchInRange(fetched) && records == P.Slice(fetched, shard, fetched.phase.lo, fetched.phase.hi)
  {
    Laws.ReachableStep(s, P.Fetch(|records|, now, atEnd));
    fetched := P.Next(s, P.Fetch(|records|, now, atEnd));
  }

  // ---------------------------------------------------------------- a stream that moves

  /** Records arrive, shards open, close and expire: none of it is the consumer's doing. */
  predicate IsStreamStep(step: P.Step) {
    step.Produce? || step.OpenShard? || step.CloseShard? || step.ExpireShard?
  }

  /** The stream can take these steps, one after the other. */
  ghost predicate CanMove(s: P.System, steps: seq<P.Step>)
    decreases |steps|, 0
  {
    steps != [] ==>
      && CanMove(s, steps[..|steps| - 1])
      && IsStreamStep(steps[|steps| - 1])
      && P.Enabled(After(s, steps[..|steps| - 1]), steps[|steps| - 1])
  }

  ghost function After(s: P.System, steps: seq<P.Step>): P.System
    requires CanMove(s, steps)
    decreases |steps|, 1
  {
    if steps == [] then s else P.Next(After(s, steps[..|steps| - 1]), steps[|steps| - 1])
  }

  ghost predicate SameStream(s: P.System, s': P.System) {
    s.stream == s'.stream && s.retained == s'.retained
  }

  /** Only the stream and the listing of retained shards have changed. */
  ghost predicate OnlyStreamMoved(s: P.System, s': P.System) {
    s' == s.(stream := s'.stream, retained := s'.retained)
  }

  lemma StreamStepIsOwn(s: P.System, s': P.System, step: P.Step)
    requires SameStream(s, s') && IsStreamStep(step) && P.Enabled(s, step)
    ensures P.Enabled(s', step) && SameStream(P.Next(s, step), P.Next(s', step))
    ensures OnlyStreamMoved(s, P.Next(s, step))
  {
    match step {
      case Produce(sid, record) =>
        if record.newImage.Some? {
          SameFreshIds(s, s', record.newImage.value.decisionId);
        }
      case _ =>
    }
  }

  lemma SameFreshIds(s: P.System, s': P.System, id: P.DecisionId)
    requires s.stream == s'.stream && P.FreshId(s, id)
    ensures P.FreshId(s', id)
  {
    forall sid, i | P.Holds(s', sid, i) && P.RecordAt(s', sid, i).newImage.Some?
      ensures P.RecordAt(s', sid, i).newImage.value.decisionId != id
    {
      assert P.Holds(s, sid, i) && P.RecordAt(s, sid, i) == P.RecordAt(s', sid, i);
    }
  }

  /** How the stream moves depends on the stream alone. */
  lemma {:induction false} MovesAreOwn(s: P.System, s': P.System, steps: seq<P.Step>)
    requires SameStream(s, s') && CanMove(s, steps)
    ensures CanMove(s', steps) && SameStream(After(s, steps), After(s', steps))
    ensures OnlyStreamMoved(s', After(s', steps))
  {
    if steps != [] {
      var front, last := steps[..|steps| - 1], steps[|steps| - 1];
      MovesAreOwn(s, s', front);
      StreamStepIsOwn(After(s, front), After(s', front), last);
      StreamStepIsOwn(After(s', front), After(s', front), last);
    }
  }

  lemma {:induction false} MovesSoFar(s: P.System, steps: seq<P.Step>, k: nat)
    requires CanMove(s, steps) && k < |steps|
    ensures CanMove(s, steps[..k]) && IsStreamStep(steps[k]) && P.Enabled(After(s, steps[..k]), steps[k])
    ensures CanMove(s, steps[..k + 1]) && After(s, steps[..k + 1]) == P.Next(After(s, steps[..k]), steps[k])
    decreases |steps|
  {
    if k == |steps| - 1 {
      assert steps[..k + 1] == steps;
    } else {
      var front := steps[..|steps| - 1];
      MovesSoFar(s, front, k);
      assert front[..k] == steps[..k] && front[..k + 1] == steps[..k + 1];
    }
  }

  /** The stream can move before each of the first k turns of a pass. */
  ghost predicate CanMoveThrough(s: P.System, moves: seq<seq<P.Step>>, k: nat)
    requires k <= |moves|
    decreases k, 0
  {
    k > 0 ==> CanMoveThrough(s, moves, k - 1) && CanMove(WorldAt(s, moves, k - 1), moves[k - 1])
  }

  ghost function WorldAt(s: P.System, moves: seq<seq<P.Step>>, k: nat): P.System
    requires k <= |moves| && CanMoveThrough(s, moves, k)
    decreases k, 1
  {
    if k == 0 then s else After(WorldAt(s, moves, k - 1), moves[k - 1])
  }

  lemma {:induction false} CanMoveEarlier(s: P.System, moves: seq<seq<P.Step>>, k: nat, n: nat)
    requires k <= n <= |moves| && CanMoveThrough(s, moves, n)
    ensures CanMoveThrough(s, moves, k)
    decreases n
  {
    if k < n {
      CanMoveEarlier(s, moves, k, n - 1);
    }
  }

  // ---------------------------------------------------------------- what a pass does

  /** One shard's turn in a pass: the shard as it was when it was read, and what was read. */
  datatype Turn = Turn(shard: ShardId, seen: P.Shard, records: seq<P.StreamRecord>, at: int, atEnd: bool)

  /** What one turn reads and writes. */
  datatype Durable = Durable(cursors: map<ShardId, P.SequenceNumber>, table: seq<P.Row>, drained: set<ShardId>)

  function ShardsOf(turns: seq<Turn>): (ids: seq<ShardId>)
    ensures |ids| == |turns| && forall k :: 0 <= k < |ids| ==> ids[k] == turns[k].shard
  {
    seq(|turns|, k requires 0 <= k < |turns| => turns[k].shard)
  }

  function CursorsAfter(cursors: map<ShardId, P.SequenceNumber>, turns: seq<Turn>): map<ShardId, P.SequenceNumber> {
    if turns == [] then cursors
    else
      var before, last := CursorsAfter(cursors, turns[..|turns| - 1]), turns[|turns| - 1];
      if last.records == [] then before else before[last.shard := last.records[|last.records| - 1].sequenceNumber]
  }

  function TableAfter(table: seq<P.Row>, turns: seq<Turn>): seq<P.Row> {
    if turns == [] then table
    else
      var last := turns[|turns| - 1];
      P.MergeRows(TableAfter(table, turns[..|turns| - 1]), P.RowsOf(last.records, last.at))
  }

  function DrainedAfter(drained: set<ShardId>, turns: seq<Turn>): set<ShardId> {
    if turns == [] then drained
    else
      var before, last := DrainedAfter(drained, turns[..|turns| - 1]), turns[|turns| - 1];
      if last.atEnd then before + {last.shard} else before
  }

  /** Each read starts right after its shard's checkpoint at that moment of the pass. */
  ghost predicate TurnsFollow(cursors: map<ShardId, P.SequenceNumber>, turns: seq<Turn>) {
    turns != [] ==>
      var front, last := turns[..|turns| - 1], turns[|turns| - 1];
      && TurnsFollow(cursors, front)
      && IsNext(last.seen, Get(CursorsAfter(cursors, front), last.shard), last.records, last.atEnd)
  }

  /** Each turn read the stream as it stood then, and s' shows the stream after the last of them. */
  ghost predicate SeenInTurn(s: P.System, moves: seq<seq<P.Step>>, turns: seq<Turn>, s': P.System) {
    && |turns| <= |moves|
    && CanMoveThrough(s, moves, |turns|)
    && SameStream(s', WorldAt(s, moves, |turns|))
    && (forall k :: 0 <= k < |turns| ==> SawShard(s, moves, turns[k], k + 1))
  }

  ghost predicate SawShard(s: P.System, moves: seq<seq<P.Step>>, turn: Turn, k: nat) {
    && k <= |moves|
    && CanMoveThrough(s, moves, k)
    && turn.shard in WorldAt(s, moves, k).stream
    && turn.seen == WorldAt(s, moves, k).stream[turn.shard]
  }

  /** The next turn's shard was read from the stream after the next moves. */
  lemma SeenOnceMore(s: P.System, moves: seq<seq<P.Step>>, turns: seq<Turn>, now: P.System, moved: P.System, turn: Turn)
    requires SeenInTurn(s, moves, turns, now) && |turns| < |moves| && CanMove(now, moves[|turns|])
    requires CanMoveThrough(s, moves, |turns| + 1)
    requires SameStream(moved, After(now, moves[|turns|]))
    requires turn.shard in moved.stream && turn.seen == moved.stream[turn.shard]
    ensures SeenInTurn(s, moves, turns + [turn], moved)
  {
    MovesAreOwn(now, WorldAt(s, moves, |turns|), moves[|turns|]);
    assert SawShard(s, moves, turn, |turns| + 1);
  }

  /** These turns were taken one after the other, and left the checkpoints, the table and the drained
      set as they are now. */
  ghost predicate PassTaken(before: Durable, turns: seq<Turn>, now: Durable) {
    && TurnsFollow(before.cursors, turns)
    && now.cursors == CursorsAfter(before.cursors, turns)
    && now.table == TableAfter(before.table, turns)
    && now.drained == DrainedAfter(before.drained, turns)
  }

  function Unread(shard: P.Shard, checkpoint: Option<P.SequenceNumber>): nat {
    |shard.records| - P.Cursor(shard.records, checkpoint)
  }

  /** The k-th turn was this shard's, found it closed and read its last record, or found nothing left. */
  ghost predicate ReadToItsEnd(cursors: map<ShardId, P.SequenceNumber>, turns: seq<Turn>, k: int, sid: ShardId) {
    && 0 <= k < |turns| && turns[k].shard == sid && turns[k].seen.closed
    && Unread(turns[k].seen, Get(CursorsAfter(cursors, turns[..k]), sid)) == |turns[k].records|
  }

  /** After a pass exactly those shards are drained that were, or that were closed when their turn came
      and had nothing left after what the turn read. */
  lemma {:induction false} DrainedExactly(cursors: map<ShardId, P.SequenceNumber>, drained: set<ShardId>,
                                          turns: seq<Turn>, sid: ShardId)
    requires TurnsFollow(cursors, turns)
    ensures sid in DrainedAfter(drained, turns) <==>
            sid in drained || exists k :: ReadToItsEnd(cursors, turns, k, sid)
  {
    if turns != [] {
      var front, last := turns[..|turns| - 1], turns[|turns| - 1];
      DrainedExactly(cursors, drained, front, sid);
      LastReadsToEnd(cursors, turns, sid);
      forall k ensures ReadToItsEnd(cursors, front, k, sid) ==> ReadToItsEnd(cursors, turns, k, sid) {
        ReadToEndEarlier(cursors, turns, k, sid);
      }
      forall k ensures k != |front| && ReadToItsEnd(cursors, turns, k, sid) ==> ReadToItsEnd(cursors, front, k, sid) {
        ReadToEndEarlier(cursors, turns, k, sid);
      }
    }
  }

  lemma LastReadsToEnd(cursors: map<ShardId, P.SequenceNumber>, turns: seq<Turn>, sid: ShardId)
    requires turns != [] && TurnsFollow(cursors, turns)
    ensures ReadToItsEnd(cursors, turns, |turns| - 1, sid) <==>
            turns[|turns| - 1].shard == sid && turns[|turns| - 1].atEnd
  {
  }

  lemma ReadToEndEarlier(cursors: map<ShardId, P.SequenceNumber>, turns: seq<Turn>, k: int, sid: ShardId)
    requires turns != []
    ensures k != |turns| - 1 ==>
              (ReadToItsEnd(cursors, turns[..|turns| - 1], k, sid) <==> ReadToItsEnd(cursors, turns, k, sid))
  {
    var front := turns[..|turns| - 1];
    if 0 <= k < |front| {
      assert front[..k] == turns[..k];
    }
  }

  lemma DrainedByTurns(cursors: map<ShardId, P.SequenceNumber>, drained: set<ShardId>, turns: seq<Turn>)
    requires TurnsFollow(cursors, turns)
    ensures forall sid :: sid in DrainedAfter(drained, turns) <==>
            sid in drained || exists k :: ReadToItsEnd(cursors, turns, k, sid)
  {
    forall sid
      ensures sid in DrainedAfter(drained, turns) <==>
              sid in drained || exists k :: ReadToItsEnd(cursors, turns, k, sid)
    {
      DrainedExactly(cursors, drained, turns, sid);
    }
  }

  lemma HandedOver(turns: seq<Turn>, todo: seq<ShardId>)
    requires todo != []
    ensures forall turn: Turn :: turn.shard == todo[0] ==>
            ShardsOf(turns + [turn]) + todo[1..] == ShardsOf(turns) + todo
  {
  }

  lemma NextInLine(turns: seq<Turn>, todo: seq<ShardId>, ids: seq<ShardId>)
    requires ShardsOf(turns) + todo == ids && |turns| < |ids|
    ensures todo != [] && todo[0] == ids[|turns|]
  {
    assert (ShardsOf(turns) + todo)[|turns|] == todo[0];
  }

  lemma TableOneMore(table: seq<P.Row>, turns: seq<Turn>, turn: Turn)
    ensures TableAfter(table, turns + [turn]) ==
            P.MergeRows(TableAfter(table, turns), P.RowsOf(turn.records, turn.at))
  {
    assert (turns + [turn])[..|turns + [turn]| - 1] == turns;
  }

  lemma CursorsOneMore(cursors: map<ShardId, P.SequenceNumber>, turns: seq<Turn>, turn: Turn)
    ensures CursorsAfter(cursors, turns + [turn]) ==
            if turn.records == [] then CursorsAfter(cursors, turns)
            else CursorsAfter(cursors, turns)[turn.shard := turn.records[|turn.records| - 1].sequenceNumber]
  {
    assert (turns + [turn])[..|turns + [turn]| - 1] == turns;
  }

  lemma DrainedOneMore(drained: set<ShardId>, turns: seq<Turn>, turn: Turn)
    ensures DrainedAfter(drained, turns + [turn]) ==
            if turn.atEnd then DrainedAfter(drained, turns) + {turn.shard} else DrainedAfter(drained, turns)
  {
    assert (turns + [turn])[..|turns + [turn]| - 1] == turns;
  }

  lemma FollowOneMore(cursors: map<ShardId, P.SequenceNumber>, turns: seq<Turn>, turn: Turn)
    requires TurnsFollow(cursors, turns)
    requires IsNext(turn.seen, Get(CursorsAfter(cursors, turns), turn.shard), turn.records, turn.atEnd)
    ensures TurnsFollow(cursors, turns + [turn])
  {
    assert (turns + [turn])[..|turns + [turn]| - 1] == turns;
  }

  lemma OneMoreTurn(before: Durable, turns: seq<Turn>, now: Durable, turn: Turn, now': Durable)
    requires PassTaken(before, turns, now)
    requires IsNext(turn.seen, Get(now.cursors, turn.shard), turn.records, turn.atEnd)
    requires now'.cursors == if turn.records == [] then now.cursors
                             else now.cursors[turn.shard := turn.records[|turn.records| - 1].sequenceNumber]
    requires now'.table == P.MergeRows(now.table, P.RowsOf(turn.records, turn.at))
    requires now'.drained == if turn.atEnd then now.drained + {turn.shard} else now.drained
    ensures PassTaken(before, turns + [turn], now')
  {
    FollowOneMore(before.cursors, turns, turn);
    CursorsOneMore(before.cursors, turns, turn);
    TableOneMore(before.table, turns, turn);
    DrainedOneMore(before.drained, turns, turn);
  }

  class Consumer {
    const client: StreamsClient
    const table: IcebergTable
    const store: CheckpointStore
    var drained: set<ShardId>
    ghost var sys: P.System

    /** The objects show the protocol state, which is reachable. */
    ghost predicate Valid()
      reads this, client, table, store
    {
      && sys.stream == client.shards
      && sys.table == table.rows
      && sys.checkpoints == store.cursors
      && sys.drained == drained
      && P.Reachable(sys)
    }

    constructor (client: StreamsClient, table: IcebergTable, store: CheckpointStore)
      requires client.shards == map[] && table.rows == [] && store.cursors == map[]
      ensures Valid() && sys == P.INIT
      ensures this.client == client && this.table == table && this.store == store
    {
      this.client, this.table, this.store := client, table, store;
      drained := {};
      sys := P.INIT;
      new;
      assert P.IsRun([P.INIT]) && [P.INIT][0] == P.INIT;
    }

    /** One call of process_shard_once on the shard at the head of the pass: reads after the
        checkpoint, merges, checkpoints; says whether the shard is closed and exhausted. */
    method ProcessShardOnce(shard: ShardId, now: int) returns (exhausted: bool, ghost records: seq<P.StreamRecord>)
      requires Valid() && sys.phase.Idle? && sys.todo != [] && sys.todo[0] == shard
      modifies this`sys, table, store
      ensures Valid() && sys.phase == P.Checkpointed(shard, exhausted)
      ensures sys.stream == old(sys.stream) && sys.retained == old(sys.retained)
      ensures sys.todo == old(sys.todo) && sys.listing == old(sys.listing)
      ensures shard in client.shards && IsNext(client.shards[shard], Get(old(store.cursors), shard), records, exhausted)
      ensures table.rows == P.MergeRows(old(table.rows), P.RowsOf(records, now))
      ensures store.cursors == if records == [] then old(store.cursors)
                               else old(store.cursors)[shard := records[|records| - 1].sequenceNumber]
    {
      Queued(sys, shard);
      var checkpoint := store.GetCheckpoint(shard);
      var batch, atEnd := client.GetRecords(shard, checkpoint);
      records, exhausted := batch, atEnd;
      sys := FetchStep(sys, shard, batch, now, atEnd);
      if batch != [] {
        MergeBatch(shard, batch, now);
      } else {
        IcebergTable.KeepAll(table.rows);
      }
    }

    /** The merge and the checkpoint of a non-empty batch. */
    method MergeBatch(shard: ShardId, records: seq<P.StreamRecord>, now: int)
      requires Valid() && sys.phase.Fetched? && P.BatchInRange(sys)
      requires sys.phase.shard == shard && sys.phase.at == now
      requires records == P.Slice(sys, shard, sys.phase.lo, sys.phase.hi)
      modifies this`sys, table, store
      ensures Valid() && sys.phase == P.Checkpointed(shard, old(sys.phase.atEnd))
      ensures sys.stream == old(sys.stream) && sys.retained == old(sys.retained)
      ensures sys.todo == old(sys.todo) && sys.listing == old(sys.listing)
      ensures table.rows == P.MergeRows(old(table.rows), P.RowsOf(records, now))
      ensures store.cursors == old(store.cursors)[shard := records[|records| - 1].sequenceNumber]
    {
      ghost var before := sys;
      MergeSteps(before, P.RowsOf(records, now), records[|records| - 1].sequenceNumber);
      table.MergeRows(P.RowsOf(records, now));
      store.PutCheckpoint(shard, records[|records| - 1].sequenceNumber);
      sys := before.(table := table.rows, checkpoints := store.cursors,
                     phase := P.Checkpointed(shard, before.phase.atEnd));
    }

    /** The protocol takes a step; the objects follow in the code around it. */
    ghost method Take(step: P.Step)
      requires P.Reachable(sys) && P.Enabled(sys, step)
      modifies this`sys
      ensures P.Reachable(sys) && sys == P.Next(old(sys), step)
    {
      Laws.ReachableStep(sys, step);
      sys := P.Next(sys, step);
    }

    /** Between two calls the stream moves on by itself: records arrive, shards open, close and expire. */
    method StreamAdvances(step: P.Step)
      requires Valid() && P.Enabled(sys, step)
      requires IsStreamStep(step)
      modifies this`sys, client
      ensures Valid() && sys == P.Next(old(sys), step)
    {
      match step {
        case Produce(shard, record) =>
          var open := client.shards[shard];
          client.shards := client.shards[shard := open.(records := open.records + [record])];
        case OpenShard(id, parent) =>
          client.shards := client.shards[id := P.Shard(ShardInfo(id, parent), [], false)];
        case CloseShard(id) =>
          client.shards := client.shards[id := client.shards[id].(closed := true)];
        case _ =>
      }
      Take(step);
    }

    /** Any number of such steps. */
    method StreamMoves(steps: seq<P.Step>)
      requires Valid() && CanMove(sys, steps)
      modifies this`sys, client
      ensures Valid() && CanMove(old(sys), steps) && sys == After(old(sys), steps)
    {
      ghost var start := sys;
      for k := 0 to |steps|
        invariant Valid() && CanMove(start, steps) && CanMove(start, steps[..k]) && sys == After(start, steps[..k])
      {
        MovesSoFar(start, steps, k);
        StreamAdvances(steps[k]);
      }
      assert steps[..|steps|] == steps;
    }

    ghost function Now(): Durable
      reads this, table, store
    {
      Durable(store.cursors, table.rows, drained)
    }

    /** One shard of the pass: read, merged, checkpointed, and remembered if it is exhausted. */
    method TakeTurn(ghost before: Durable, shard: ShardId, now: int, ghost turns: seq<Turn>)
      returns (ghost turns': seq<Turn>)
      requires Valid() && sys.phase.Idle? && sys.todo != [] && sys.todo[0] == shard
      requires PassTaken(before, turns, Now())
      modifies this, table, store
      ensures Valid() && sys.phase.Idle? && SameStream(sys, old(sys)) && sys.todo == old(sys.todo)[1..]
      ensures |turns'| == |turns| + 1 && turns' == turns + [turns'[|turns|]]
      ensures turns'[|turns|].shard == shard && shard in sys.stream && turns'[|turns|].seen == sys.stream[shard]
      ensures PassTaken(before, turns', Now())
    {
      ghost var start := Now();
      var exhausted, records := ProcessShardOnce(shard, now);
      ghost var turn := Turn(shard, sys.stream[shard], records, now, exhausted);
      turns' := turns + [turn];
      if exhausted {
        drained := drained + {shard};
      }
      Take(P.Finish);
      OneMoreTurn(before, turns, start, turn, Now());
    }

    /** The stream moves, then the next shard has its turn. */
    method NextTurn(ghost start: P.System, moves: seq<seq<P.Step>>, ghost before: Durable, shard: ShardId, now: int,
                    ghost turns: seq<Turn>, k: nat) returns (ghost turns': seq<Turn>)
      requires Valid() && sys.phase.Idle? && sys.todo != [] && sys.todo[0] == shard
      requires k == |turns| < |moves| && SeenInTurn(start, moves, turns, sys) && CanMoveThrough(start, moves, k + 1)
      requires PassTaken(before, turns, Now())
      modifies this, table, store, client
      ensures Valid() && sys.phase.Idle? && sys.todo == old(sys.todo)[1..]
      ensures |turns'| == k + 1 && ShardsOf(turns') + sys.todo == ShardsOf(turns) + old(sys.todo)
      ensures SeenInTurn(start, moves, turns', sys)
      ensures PassTaken(before, turns', Now())
    {
      ghost var was := sys;
      HandedOver(turns, sys.todo);
      MovesAreOwn(WorldAt(start, moves, k), was, moves[k]);
      StreamMoves(moves[k]);
      turns' := TakeTurn(before, shard, now, turns);
      SeenOnceMore(start, moves, turns, was, sys, turns'[k]);
    }

    /** One turn of the polling loop over a stream that keeps moving: every shard ready in this listing,
        one after the other, each read right after its checkpoint from the stream as it stands then,
        merged and checkpointed; exhausted ones are remembered. moves[k] is what happens to the stream
        before the k-th shard is read. */
    method Poll(listing: seq<ShardInfo>, clock: nat -> int, moves: seq<seq<P.Step>>) returns (ghost turns: seq<Turn>)
      requires Valid() && P.Enabled(sys, P.BeginPass(listing))
      requires |moves| == |ReadyShards(listing, drained)| && CanMoveThrough(sys, moves, |moves|)
      modifies this, table, store, client
      ensures Valid() && sys.phase.Idle? && sys.todo == []
      ensures ShardsOf(turns) == P.ShardIds(ReadyShards(listing, old(drained)))
      ensures SeenInTurn(old(sys), moves, turns, sys)
      ensures PassTaken(old(Now()), turns, Now())
      ensures forall shard :: shard in drained <==>
              shard in old(drained) || exists k :: ReadToItsEnd(old(store.cursors), turns, k, shard)
      ensures forall shard :: shard in drained ==> Laws.Exhausted(sys, shard)
    {
      ghost var start, before := sys, Now();
      var ready := OrderShardsForProcessing(listing, drained);
      Take(P.BeginPass(listing));
      turns := [];
      for k := 0 to |ready|
        invariant Valid() && sys.phase.Idle? && |turns| == k
        invariant ShardsOf(turns) + sys.todo == P.ShardIds(ready)
        invariant SeenInTurn(start, moves, turns, sys)
        invariant PassTaken(before, turns, Now())
      {
        CanMoveEarlier(start, moves, k + 1, |moves|);
        NextInLine(turns, sys.todo, P.ShardIds(ready));
        turns := NextTurn(start, moves, before, ready[k].id, clock(k), turns, k);
      }
      DrainedByTurns(before.cursors, before.drained, turns);
      DrainedAreExhausted(sys);
    }

    /** A crash and restart: everything in memory is lost, the table and the checkpoints are not. */
    method Restart()
      requires Valid()
      modifies this
      ensures Valid() && drained == {} && sys.phase.Idle? && sys.todo == []
      ensures sys.stream == old(sys.stream)
    {
      Take(P.Crash);
      drained := {};
    }
  }
}
