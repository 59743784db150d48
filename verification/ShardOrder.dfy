/** Which shards of a DynamoDB stream may be read in a pass, and in which order. */
module ShardOrder {
  import opened Wrappers
  import opened Listings

  /** Shard ids compare as strings in the source; here they are integers in the same order. */
  type ShardId = int

  datatype ShardInfo = ShardInfo(id: ShardId, parent: Option<ShardId>)

  /** The order of the sort key (has a parent, shard id). */
  predicate NotAfter(a: ShardInfo, b: ShardInfo) {
    if a.parent.Some? != b.parent.Some? then b.parent.Some? else a.id <= b.id
  }

  function Ids(shards: seq<ShardInfo>): set<ShardId> {
    set k | 0 <= k < |shards| :: shards[k].id
  }

  predicate ParentPending(shard: ShardInfo, present: set<ShardId>, drained: set<ShardId>) {
    shard.parent.Some? && shard.parent.value in present && shard.parent.value !in drained
  }

  function ReadyShards(shards: seq<ShardInfo>, drained: set<ShardId>): seq<ShardInfo> {
    Sort(Filter(shards, (s: ShardInfo) => !ParentPending(s, Ids(shards), drained)), NotAfter)
  }

  method OrderShardsForProcessing(shards: seq<ShardInfo>, drained: set<ShardId>) returns (ready: seq<ShardInfo>)
    ensures ready == ReadyShards(shards, drained)
  {
    var present := Ids(shards);
    var isReady := (s: ShardInfo) => !ParentPending(s, present, drained);
    ready := [];
    for k := 0 to |shards|
      invariant ready == Filter(shards[..k], isReady)
    {
      assert shards[..k + 1][..k] == shards[..k];
      if isReady(shards[k]) {
        ready := ready + [shards[k]];
      }
    }
    assert shards[..|shards|] == shards;
    ready := Sort(ready, NotAfter);
  }

  /** The pass reads exactly the listed shards whose parent is not pending, ordered by the sort key. */
  lemma ReadyExactly(shards: seq<ShardInfo>, drained: set<ShardId>, s: ShardInfo)
    ensures s in ReadyShards(shards, drained) <==> s in shards && !ParentPending(s, Ids(shards), drained)
    ensures SortedBy(ReadyShards(shards, drained), NotAfter)
  {
    var kept := Filter(shards, (s: ShardInfo) => !ParentPending(s, Ids(shards), drained));
    assert s in kept <==> s in multiset(kept);
    assert s in ReadyShards(shards, drained) <==> s in multiset(ReadyShards(shards, drained));
  }

  /** before comes somewhere before after. */
  ghost predicate Precedes(order: seq<ShardInfo>, before: ShardInfo, after: ShardInfo) {
    exists j, k :: 0 <= j < k < |order| && order[j] == before && order[k] == after
  }

  /** "Parent first" within one pass is a matter of the sort key, not of the lineage: of two ready
      shards of one lineage the parent comes first if and only if it is a root or has the smaller id. */
  lemma ParentFirstExactly(shards: seq<ShardInfo>, drained: set<ShardId>, parent: ShardInfo, child: ShardInfo)
    requires forall j, k :: 0 <= j < k < |shards| ==> shards[j].id != shards[k].id
    requires parent in ReadyShards(shards, drained) && child in ReadyShards(shards, drained)
    requires child.parent == Some(parent.id) && parent != child
    ensures Precedes(ReadyShards(shards, drained), parent, child) <==> parent.parent.None? || parent.id < child.id
  {
    var order := ReadyShards(shards, drained);
    ReadyExactly(shards, drained, parent);
    ReadyExactly(shards, drained, child);
    assert parent.id != child.id;
    ReadyIsDistinct(shards, drained);
    var j :| 0 <= j < |order| && order[j] == parent;
    var k :| 0 <= k < |order| && order[k] == child;
    if j < k {
      assert NotAfter(order[j], order[k]);
    } else {
      assert NotAfter(order[k], order[j]);
    }
  }

  lemma ReadyIsDistinct(shards: seq<ShardInfo>, drained: set<ShardId>)
    requires forall j, k :: 0 <= j < k < |shards| ==> shards[j].id != shards[k].id
    ensures Distinct(ReadyShards(shards, drained))
  {
    var keep := (s: ShardInfo) => !ParentPending(s, Ids(shards), drained);
    var kept := Filter(shards, keep);
    FilterDistinct(shards, keep);
    var order := ReadyShards(shards, drained);
    forall j, k | 0 <= j < k < |order| ensures order[j] != order[k] {
      if order[j] == order[k] {
        DistinctCounts(kept, order[j]);
        CountsTwice(order, j, k);
      }
    }
  }

  lemma CountsTwice<T>(items: seq<T>, j: nat, k: nat)
    requires j < k < |items| && items[j] == items[k]
    ensures multiset(items)[items[j]] >= 2
  {
    assert items == items[..k] + items[k..];
    assert items[j] in items[..k] && items[k] in items[k..];
    assert multiset(items) == multiset(items[..k]) + multiset(items[k..]);
  }

  /** The order is not parent-first in general: a drained parent whose id sorts after its child's. */
  lemma ParentFirstCanFail()
    ensures exists shards: seq<ShardInfo>, drained: set<ShardId>, parent: ShardInfo, child: ShardInfo ::
              && child.parent == Some(parent.id)
              && parent in ReadyShards(shards, drained) && child in ReadyShards(shards, drained)
              && !Precedes(ReadyShards(shards, drained), parent, child)
  {
    var parent, child := ShardInfo(5, Some(9)), ShardInfo(3, Some(5));
    var shards, drained := [parent, child], {5};
    ReadyExactly(shards, drained, parent);
    ReadyExactly(shards, drained, child);
    ParentFirstExactly(shards, drained, parent, child);
  }
}
