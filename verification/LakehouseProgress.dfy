/** Ingestion gets done: on a stream that has come to rest, passes that read something wherever something
    is left checkpoint every record, and so bring the table to the stream. */
module LakehouseProgress {
  import opened Wrappers
  import opened Listings
  import opened ShardOrder
  import opened LakehouseConsumer
  import P = LakehouseProtocol
  import Laws = LakehouseLaws

  // ---------------------------------------------------------------- parents were opened first

  /** Ranks that put every parent before its children. */
  ghost predicate Ranks(stream: map<ShardId, P.Shard>, rank: map<ShardId, nat>) {
    && stream.Keys <= rank.Keys
    && forall sid :: sid in stream && stream[sid].info.parent.Some? ==>
         var parent := stream[sid].info.parent.value;
         parent in stream && rank[parent] < rank[sid]
  }

  lemma ParentsAreKnown(s: P.System)
    requires P.Reachable(s)
    ensures forall sid :: sid in s.stream && s.stream[sid].info.parent.Some? ==>
            s.stream[sid].info.parent.value in s.stream
  {
    Laws.InvHolds(s);
  }

  lemma RanksAfter(s: P.System, step: P.Step, rank: map<ShardId, nat>) returns (rank': map<ShardId, nat>)
    requires P.Reachable(s) && P.Enabled(s, step) && Ranks(s.stream, rank)
    ensures Ranks(P.Next(s, step).stream, rank')
  {
    ParentsAreKnown(s);
    rank' := rank;
    if step.OpenShard? {
      rank' := rank[step.id := if step.parent.Some? then rank[step.parent.value] + 1 else 0];
    }
  }

  lemma {:induction false} RanksAlong(states: seq<P.System>) returns (rank: map<ShardId, nat>)
    requires P.IsRun(states) && states[0] == P.INIT
    ensures Ranks(states[|states| - 1].stream, rank)
    decreases |states|
  {
    if |states| == 1 {
      rank := map[];
    } else {
      var front := states[..|states| - 1];
      assert P.IsRun(front) by {
        forall k | 0 <= k < |front| - 1 ensures P.Linked(front[k], front[k + 1]) {
          assert P.Linked(states[k], states[k + 1]);
        }
      }
      var before := RanksAlong(front);
      var s := states[|states| - 2];
      assert P.Linked(s, states[|states| - 2 + 1]);
      var step :| P.Enabled(s, step) && states[|states| - 1] == P.Next(s, step);
      assert P.Reachable(s) by { assert front[|front| - 1] == s; }
      rank := RanksAfter(s, step, before);
    }
  }

  lemma ReachableHasRanks(s: P.System) returns (rank: map<ShardId, nat>)
    requires P.Reachable(s)
    ensures Ranks(s.stream, rank)
  {
    var states :| P.IsRun(states) && states[0] == P.INIT && states[|states| - 1] == s;
    rank := RanksAlong(states);
  }

  // ---------------------------------------------------------------- what is left to do

  /** The stream has come to rest, and the listing shows all of it. */
  ghost predicate AtRest(stream: map<ShardId, P.Shard>, listing: seq<ShardInfo>) {
    && (forall sid :: sid in stream ==> stream[sid].closed && stream[sid].info.id == sid)
    && (forall sid :: sid in stream ==> P.Increasing(stream[sid].records))
    && (forall info :: info in listing <==> info.id in stream && stream[info.id].info == info)
  }

  /** The unread records of the shard, and one more while it is not known to be drained. */
  function LeftOf(stream: map<ShardId, P.Shard>, d: Durable, sid: ShardId): nat {
    if sid !in stream then 0
    else Unread(stream[sid], Get(d.cursors, sid)) + (if sid in d.drained then 0 else 1)
  }

  function Left(stream: map<ShardId, P.Shard>, d: Durable, listing: seq<ShardInfo>): nat {
    if listing == [] then 0
    else Left(stream, d, listing[..|listing| - 1]) + LeftOf(stream, d, listing[|listing| - 1].id)
  }

  lemma {:induction false} LeftShrinks(stream: map<ShardId, P.Shard>, d: Durable, d': Durable, listing: seq<ShardInfo>)
    requires forall info :: info in listing ==> LeftOf(stream, d', info.id) <= LeftOf(stream, d, info.id)
    ensures Left(stream, d', listing) <= Left(stream, d, listing)
    ensures (exists info :: info in listing && LeftOf(stream, d', info.id) < LeftOf(stream, d, info.id)) ==>
              Left(stream, d', listing) < Left(stream, d, listing)
  {
    if listing != [] {
      var front, last := listing[..|listing| - 1], listing[|listing| - 1];
      assert listing == front + [last];
      LeftShrinks(stream, d, d', front);
    }
  }

  // ---------------------------------------------------------------- one turn, one pass

  /** It read something if something was left. */
  ghost predicate ReadsOn(cursors: map<ShardId, P.SequenceNumber>, turn: Turn) {
    Unread(turn.seen, Get(cursors, turn.shard)) > 0 ==> turn.records != []
  }

  ghost predicate AllReadOn(cursors: map<ShardId, P.SequenceNumber>, turns: seq<Turn>) {
    turns != [] ==>
      var front, last := turns[..|turns| - 1], turns[|turns| - 1];
      AllReadOn(cursors, front) && ReadsOn(CursorsAfter(cursors, front), last)
  }

  /** What is checkpointed and drained after these turns; they leave the table to others. */
  function AfterTurns(d: Durable, turns: seq<Turn>): Durable {
    Durable(CursorsAfter(d.cursors, turns), d.table, DrainedAfter(d.drained, turns))
  }

  ghost predicate SawStream(stream: map<ShardId, P.Shard>, turns: seq<Turn>) {
    forall k :: 0 <= k < |turns| ==> turns[k].shard in stream && turns[k].seen == stream[turns[k].shard]
  }

  lemma UnreadAfterRead(cursors: map<ShardId, P.SequenceNumber>, turn: Turn, cursors': map<ShardId, P.SequenceNumber>)
    requires P.Increasing(turn.seen.records)
    requires IsNext(turn.seen, Get(cursors, turn.shard), turn.records, turn.atEnd)
    requires cursors' == if turn.records == [] then cursors
                         else cursors[turn.shard := turn.records[|turn.records| - 1].sequenceNumber]
    ensures Unread(turn.seen, Get(cursors', turn.shard)) == Unread(turn.seen, Get(cursors, turn.shard)) - |turn.records|
    ensures forall other :: other != turn.shard ==> Get(cursors', other) == Get(cursors, other)
  {
    var records, lo := turn.seen.records, P.Cursor(turn.seen.records, Get(cursors, turn.shard));
    if turn.records != [] {
      assert turn.records[|turn.records| - 1] == records[lo + |turn.records| - 1];
      P.ReadingResumesAfterPut(cursors, turn.shard, records, lo + |turn.records|);
    }
  }

  /** A turn leaves no more to do anywhere, and less on its own shard unless that was drained. */
  lemma TurnShrinks(stream: map<ShardId, P.Shard>, d: Durable, turn: Turn, d': Durable, sid: ShardId)
    requires turn.shard in stream && turn.seen == stream[turn.shard]
    requires turn.seen.closed && P.Increasing(turn.seen.records)
    requires IsNext(turn.seen, Get(d.cursors, turn.shard), turn.records, turn.atEnd) && ReadsOn(d.cursors, turn)
    requires d'.cursors == if turn.records == [] then d.cursors
                           else d.cursors[turn.shard := turn.records[|turn.records| - 1].sequenceNumber]
    requires d'.drained == if turn.atEnd then d.drained + {turn.shard} else d.drained
    ensures LeftOf(stream, d', sid) <= LeftOf(stream, d, sid)
    ensures sid == turn.shard && sid !in d.drained ==> LeftOf(stream, d', sid) < LeftOf(stream, d, sid)
  {
    UnreadAfterRead(d.cursors, turn, d'.cursors);
  }

  lemma {:induction false} OnlyTurnsDrain(drained: set<ShardId>, turns: seq<Turn>, sid: ShardId)
    requires sid in DrainedAfter(drained, turns) && sid !in drained
    ensures sid in ShardsOf(turns)
  {
    var front := turns[..|turns| - 1];
    assert ShardsOf(turns) == ShardsOf(front) + [turns[|turns| - 1].shard];
    if sid in DrainedAfter(drained, front) {
      OnlyTurnsDrain(drained, front, sid);
    }
  }

  lemma {:induction false} TurnsShrink(stream: map<ShardId, P.Shard>, d: Durable, turns: seq<Turn>, sid: ShardId)
    requires forall sid :: sid in stream ==> stream[sid].closed && P.Increasing(stream[sid].records)
    requires SawStream(stream, turns) && TurnsFollow(d.cursors, turns) && AllReadOn(d.cursors, turns)
    ensures LeftOf(stream, AfterTurns(d, turns), sid) <= LeftOf(stream, d, sid)
    ensures sid in ShardsOf(turns) && sid !in d.drained ==>
              LeftOf(stream, AfterTurns(d, turns), sid) < LeftOf(stream, d, sid)
  {
    if turns != [] {
      var front, last := turns[..|turns| - 1], turns[|turns| - 1];
      assert ShardsOf(turns) == ShardsOf(front) + [last.shard];
      TurnsShrink(stream, d, front, sid);
      assert turns[|turns| - 1].shard in stream;
      TurnShrinks(stream, AfterTurns(d, front), last, AfterTurns(d, turns), sid);
      if sid in DrainedAfter(d.drained, front) && sid !in d.drained {
        OnlyTurnsDrain(d.drained, front, sid);
      }
    }
  }

  // ---------------------------------------------------------------- some shard is always ready

  lemma {:induction false} Lowest(all: set<ShardId>, rank: map<ShardId, nat>) returns (least: ShardId)
    requires all != {} && all <= rank.Keys
    ensures least in all && forall sid :: sid in all ==> rank[least] <= rank[sid]
    decreases all
  {
    var sid := Member(all);
    if all == {sid} {
      least := sid;
    } else {
      var others := all - {sid};
      assert all == others + {sid};
      var rest := Lowest(others, rank);
      least := if rank[rest] < rank[sid] then rest else sid;
    }
  }

  /** While a shard is not drained, one that is not drained is ready. */
  lemma SomeUndrainedIsReady(stream: map<ShardId, P.Shard>, rank: map<ShardId, nat>, listing: seq<ShardInfo>,
                             drained: set<ShardId>)
    returns (sid: ShardId)
    requires AtRest(stream, listing) && Ranks(stream, rank) && !(stream.Keys <= drained)
    ensures sid in stream && sid !in drained && sid in P.ShardIds(ReadyShards(listing, drained))
  {
    var left := stream.Keys - drained;
    assert stream.Keys <= left + drained;
    sid := Lowest(left, rank);
    var info := stream[sid].info;
    ReadyExactly(listing, drained, info);
    assert !ParentPending(info, Ids(listing), drained);
    var ready := ReadyShards(listing, drained);
    var k :| 0 <= k < |ready| && ready[k] == info;
    assert P.ShardIds(ready)[k] == sid;
  }

  // ---------------------------------------------------------------- passes

  /** A pass over the stream at rest: exactly the ready shards have a turn, and each reads on. */
  ghost predicate IsPass(stream: map<ShardId, P.Shard>, listing: seq<ShardInfo>, d: Durable, turns: seq<Turn>,
                         d': Durable)
  {
    && ShardsOf(turns) == P.ShardIds(ReadyShards(listing, d.drained))
    && SawStream(stream, turns)
    && PassTaken(d, turns, d')
  }

  lemma SameLeft(stream: map<ShardId, P.Shard>, d: Durable, d': Durable, sid: ShardId)
    requires d.cursors == d'.cursors && d.drained == d'.drained
    ensures LeftOf(stream, d, sid) == LeftOf(stream, d', sid)
  {
  }

  lemma PassShrinks(stream: map<ShardId, P.Shard>, rank: map<ShardId, nat>, listing: seq<ShardInfo>, d: Durable,
                    turns: seq<Turn>, d': Durable)
    requires AtRest(stream, listing) && Ranks(stream, rank)
    requires IsPass(stream, listing, d, turns, d') && AllReadOn(d.cursors, turns)
    ensures Left(stream, d', listing) <= Left(stream, d, listing)
    ensures !(stream.Keys <= d.drained) ==> Left(stream, d', listing) < Left(stream, d, listing)
  {
    forall info | info in listing ensures LeftOf(stream, d', info.id) <= LeftOf(stream, d, info.id) {
      TurnsShrink(stream, d, turns, info.id);
      SameLeft(stream, AfterTurns(d, turns), d', info.id);
    }
    LeftShrinks(stream, d, d', listing);
    if !(stream.Keys <= d.drained) {
      var sid := SomeUndrainedIsReady(stream, rank, listing, d.drained);
      TurnsShrink(stream, d, turns, sid);
      SameLeft(stream, AfterTurns(d, turns), d', sid);
      assert stream[sid].info in listing;
    }
  }

  lemma {:induction false} DrainedOnlyGrows(drained: set<ShardId>, turns: seq<Turn>)
    ensures drained <= DrainedAfter(drained, turns)
  {
    if turns != [] {
      DrainedOnlyGrows(drained, turns[..|turns| - 1]);
    }
  }

  lemma {:induction false} SomethingIsLeft(stream: map<ShardId, P.Shard>, d: Durable, listing: seq<ShardInfo>,
                                           info: ShardInfo)
    requires info in listing && info.id in stream && info.id !in d.drained
    ensures Left(stream, d, listing) > 0
  {
    var front, last := listing[..|listing| - 1], listing[|listing| - 1];
    assert listing == front + [last];
    if last != info {
      SomethingIsLeft(stream, d, front, info);
    }
  }

  /** When nothing is left, every shard is drained. */
  lemma NothingLeft(stream: map<ShardId, P.Shard>, d: Durable, listing: seq<ShardInfo>)
    requires AtRest(stream, listing) && Left(stream, d, listing) == 0
    ensures stream.Keys <= d.drained
  {
    forall sid | sid in stream ensures sid in d.drained {
      if sid !in d.drained {
        SomethingIsLeft(stream, d, listing, stream[sid].info);
      }
    }
  }

  /** Nothing happens to the stream before any of n turns. */
  function Quiet(n: nat): (moves: seq<seq<P.Step>>)
    ensures |moves| == n && forall k :: 0 <= k < n ==> moves[k] == []
  {
    seq(n, k => [])
  }

  lemma {:induction false} QuietWorld(s: P.System, moves: seq<seq<P.Step>>, k: nat)
    requires k <= |moves| && forall k :: 0 <= k < |moves| ==> moves[k] == []
    ensures CanMoveThrough(s, moves, k) && WorldAt(s, moves, k) == s
    decreases k
  {
    if k > 0 {
      QuietWorld(s, moves, k - 1);
    }
  }

  /** Successive passes; states[p] is what stood before pass p. */
  ghost predicate ArePasses(stream: map<ShardId, P.Shard>, listing: seq<ShardInfo>, states: seq<Durable>,
                            log: seq<seq<Turn>>)
  {
    && |states| == |log| + 1
    && forall p :: 0 <= p < |log| ==> IsPass(stream, listing, states[p], log[p], states[p + 1])
  }

  ghost predicate EveryReadGoesOn(states: seq<Durable>, log: seq<seq<Turn>>)
    requires |states| == |log| + 1
  {
    forall p :: 0 <= p < |log| ==> AllReadOn(states[p].cursors, log[p])
  }

  lemma {:induction false} PassesShrink(stream: map<ShardId, P.Shard>, rank: map<ShardId, nat>,
                                        listing: seq<ShardInfo>, states: seq<Durable>, log: seq<seq<Turn>>, p: nat)
    requires AtRest(stream, listing) && Ranks(stream, rank) && ArePasses(stream, listing, states, log) && p <= |log|
    requires EveryReadGoesOn(states, log)
    ensures stream.Keys <= states[p].drained || Left(stream, states[p], listing) + p <= Left(stream, states[0], listing)
  {
    if p > 0 {
      PassesShrink(stream, rank, listing, states, log, p - 1);
      assert IsPass(stream, listing, states[p - 1], log[p - 1], states[p - 1 + 1]);
      PassShrinks(stream, rank, listing, states[p - 1], log[p - 1], states[p]);
      DrainedOnlyGrows(states[p - 1].drained, log[p - 1]);
    }
  }

  /** Progress: as many passes as records and shards are left drain every shard. */
  lemma EnoughPassesDrain(stream: map<ShardId, P.Shard>, rank: map<ShardId, nat>, listing: seq<ShardInfo>,
                          states: seq<Durable>, log: seq<seq<Turn>>)
    requires AtRest(stream, listing) && Ranks(stream, rank) && ArePasses(stream, listing, states, log)
    requires EveryReadGoesOn(states, log) && |log| >= Left(stream, states[0], listing)
    ensures stream.Keys <= states[|log|].drained
  {
    PassesShrink(stream, rank, listing, states, log, |log|);
    if !(stream.Keys <= states[|log|].drained) {
      NothingLeft(stream, states[|log|], listing);
    }
  }

  /** Every record is checkpointed and the table is the stream: a row for each record with an image, no
      other row, none twice. */
  ghost predicate Ingested(s: P.System) {
    && (forall sid, i :: P.Holds(s, sid, i) ==> P.Covered(s, sid, i))
    && P.UniqueIds(s.table)
    && (forall sid, i :: P.Holds(s, sid, i) ==>
          (P.RecordAt(s, sid, i).newImage.Some? <==> Laws.Present(s.table, P.RecordAt(s, sid, i))))
    && (forall row :: row in s.table ==> Laws.FromStream(s, row))
  }

  lemma DrainedIsIngested(s: P.System)
    requires P.Reachable(s) && s.stream.Keys <= s.drained
    ensures Ingested(s)
  {
    forall sid, i | P.Holds(s, sid, i) ensures P.Covered(s, sid, i) {
      Laws.DrainedMeansCheckpointed(s, sid);
    }
    Laws.DrainedTableIsTheStream(s);
  }

  lemma OneMorePass(stream: map<ShardId, P.Shard>, listing: seq<ShardInfo>, states: seq<Durable>, log: seq<seq<Turn>>,
                    turns: seq<Turn>, now: Durable)
    requires ArePasses(stream, listing, states, log) && IsPass(stream, listing, states[|log|], turns, now)
    ensures ArePasses(stream, listing, states + [now], log + [turns])
  {
    forall p | 0 <= p < |log| + 1
      ensures IsPass(stream, listing, (states + [now])[p], (log + [turns])[p], (states + [now])[p + 1])
    {
      if p < |log| {
        assert IsPass(stream, listing, states[p], log[p], states[p + 1]);
      }
    }
  }

  /** One pass of the polling loop while the stream is at rest. */
  method PassAtRest(consumer: Consumer, listing: seq<ShardInfo>, clock: nat -> int) returns (ghost turns: seq<Turn>)
    requires consumer.Valid() && P.Enabled(consumer.sys, P.BeginPass(listing))
    modifies consumer, consumer.table, consumer.store, consumer.client
    ensures consumer.Valid() && consumer.sys.phase.Idle? && consumer.sys.todo == []
    ensures SameStream(consumer.sys, old(consumer.sys))
    ensures IsPass(consumer.sys.stream, listing, old(consumer.Now()), turns, consumer.Now())
  {
    ghost var start := consumer.sys;
    var moves := Quiet(|ReadyShards(listing, consumer.drained)|);
    QuietWorld(start, moves, |moves|);
    turns := consumer.Poll(listing, clock, moves);
    forall k | 0 <= k < |turns|
      ensures turns[k].shard in start.stream && turns[k].seen == start.stream[turns[k].shard]
    {
      assert SawShard(start, moves, turns[k], k + 1);
      QuietWorld(start, moves, k + 1);
    }
  }

  /** The polling loop on a stream at rest, pass after pass. If every read returns something where
      something is left, as many passes as there are records and shards left ingest the whole stream. */
  method PollAtRest(consumer: Consumer, listing: seq<ShardInfo>, clock: (nat, nat) -> int, passes: nat)
    returns (ghost states: seq<Durable>, ghost log: seq<seq<Turn>>)
    requires consumer.Valid() && P.Enabled(consumer.sys, P.BeginPass(listing))
    requires AtRest(consumer.sys.stream, listing)
    modifies consumer, consumer.table, consumer.store, consumer.client
    ensures consumer.Valid() && SameStream(consumer.sys, old(consumer.sys))
    ensures ArePasses(consumer.sys.stream, listing, states, log) && |log| == passes
    ensures states[0] == old(consumer.Now()) && states[passes] == consumer.Now()
    ensures EveryReadGoesOn(states, log) && passes >= Left(consumer.sys.stream, old(consumer.Now()), listing) ==>
              Ingested(consumer.sys) && consumer.sys.stream.Keys <= consumer.drained
  {
    ghost var start := consumer.sys;
    states, log := [consumer.Now()], [];
    for p := 0 to passes
      invariant consumer.Valid() && SameStream(consumer.sys, start)
      invariant consumer.sys.phase.Idle? && consumer.sys.todo == []
      invariant |log| == p && ArePasses(start.stream, listing, states, log)
      invariant states[0] == old(consumer.Now()) && states[p] == consumer.Now()
    {
      var pass: nat := p;
      ghost var turns := PassAtRest(consumer, listing, (k: nat) => clock(pass, k));
      OneMorePass(start.stream, listing, states, log, turns, consumer.Now());
      states, log := states + [consumer.Now()], log + [turns];
    }
    ghost var rank := ReachableHasRanks(start);
    if EveryReadGoesOn(states, log) && passes >= Left(start.stream, states[0], listing) {
      EnoughPassesDrain(start.stream, rank, listing, states, log);
      DrainedIsIngested(consumer.sys);
    }
  }
}
