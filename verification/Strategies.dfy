/** Versioned pricing strategies: insert-only rows (seed.py) and the broadcast state that keeps the
    highest version delivered (stage_cost_enrichment.py). */
module Strategies {
  import opened Wrappers
  import opened PricingEngine
  import opened Models

  datatype Strategy = Strategy(version: int, targetMargin: real, discount: real, floorPolicyDefault: FloorPolicy)
  datatype StrategyRow = StrategyRow(apartmentId: ApartmentId, strategy: Strategy)

  // ---------------------------------------------------------------- delivery

  /** One delivered row: stored if its version is higher than the stored one. */
  function Deliver(state: map<ApartmentId, Strategy>, row: StrategyRow): map<ApartmentId, Strategy> {
    if row.apartmentId !in state || row.strategy.version > state[row.apartmentId].version
    then state[row.apartmentId := row.strategy]
    else state
  }

  function Delivered(rows: seq<StrategyRow>): map<ApartmentId, Strategy> {
    if rows == [] then map[] else Deliver(Delivered(rows[..|rows| - 1]), rows[|rows| - 1])
  }

  /** Insert-only with a unique (apartment, version): two rows that share both are the same row. */
  ghost predicate OneRowPerVersion(rows: seq<StrategyRow>) {
    forall i, j :: 0 <= i < |rows| && 0 <= j < |rows|
                   && rows[i].apartmentId == rows[j].apartmentId && rows[i].strategy.version == rows[j].strategy.version
                   ==> rows[i] == rows[j]
  }

  /** The strategy is a delivered row of the apartment that no other delivered row of it exceeds. */
  ghost predicate IsHighest(rows: seq<StrategyRow>, a: ApartmentId, s: Strategy) {
    && StrategyRow(a, s) in rows
    && forall row :: row in rows && row.apartmentId == a ==> row.strategy.version <= s.version
  }

  /** Whatever the order and however often rows are repeated, an apartment resolves to the highest
      version delivered for it, and to nothing exactly when nothing was delivered for it. */
  lemma {:induction false} ResolvesToHighest(rows: seq<StrategyRow>, a: ApartmentId)
    ensures a in Delivered(rows) <==> exists row :: row in rows && row.apartmentId == a
    ensures a in Delivered(rows) ==> IsHighest(rows, a, Delivered(rows)[a])
  {
    if rows != [] {
      var front, last := rows[..|rows| - 1], rows[|rows| - 1];
      assert rows == front + [last];
      ResolvesToHighest(front, a);
      if a in Delivered(front) {
        assert StrategyRow(a, Delivered(front)[a]) in rows;
      }
      assert last in rows;
    }
  }

  /** So two deliveries of the same rows converge, in any order and with any duplication. */
  lemma DeliveriesConverge(rows: seq<StrategyRow>, rows': seq<StrategyRow>)
    requires OneRowPerVersion(rows) && forall row :: row in rows <==> row in rows'
    ensures Delivered(rows) == Delivered(rows')
  {
    forall a ensures a in Delivered(rows) <==> a in Delivered(rows')
             ensures a in Delivered(rows) && a in Delivered(rows') ==> Delivered(rows)[a] == Delivered(rows')[a]
    {
      ResolvesToHighest(rows, a);
      ResolvesToHighest(rows', a);
      if a in Delivered(rows) {
        assert StrategyRow(a, Delivered(rows)[a]) in rows';
      }
      if a in Delivered(rows) && a in Delivered(rows') {
        var one, other := StrategyRow(a, Delivered(rows)[a]), StrategyRow(a, Delivered(rows')[a]);
        var i :| 0 <= i < |rows| && rows[i] == one;
        var j :| 0 <= j < |rows| && rows[j] == other;
      }
    }
  }

  // ---------------------------------------------------------------- insertion

  /** The fields a caller overrides; the others carry over. */
  datatype Changes = Changes(targetMargin: Option<real>, discount: Option<real>,
                             floorPolicyDefault: Option<FloorPolicy>)

  function GetOr<T>(o: Option<T>, default: T): T {
    if o.Some? then o.value else default
  }

  function Revise(s: Strategy, changes: Changes): Strategy {
    Strategy(s.version + 1, GetOr(changes.targetMargin, s.targetMargin), GetOr(changes.discount, s.discount),
             GetOr(changes.floorPolicyDefault, s.floorPolicyDefault))
  }

  /** The pricing_strategies table. */
  class StrategyTable {
    var rows: seq<StrategyRow>

    ghost predicate Valid()
      reads this
    {
      OneRowPerVersion(rows)
    }

    constructor ()
      ensures Valid() && rows == []
    {
      rows := [];
    }

    /** Seeding inserts a first version unless that (apartment, version) exists. */
    method Seed(a: ApartmentId, s: Strategy)
      requires Valid()
      modifies this
      ensures Valid()
      ensures rows == if exists row :: row in old(rows) && row.apartmentId == a && row.strategy.version == s.version
                      then old(rows) else old(rows) + [StrategyRow(a, s)]
    {
      var current := FindVersion(a, s.version);
      if current.None? {
        rows := rows + [StrategyRow(a, s)];
      }
    }

    method FindVersion(a: ApartmentId, version: int) returns (found: Option<StrategyRow>)
      ensures found.Some? ==>
                found.value in rows && found.value.apartmentId == a && found.value.strategy.version == version
      ensures found.None? ==> forall row :: row in rows ==> !(row.apartmentId == a && row.strategy.version == version)
    {
      found := None;
      for k := 0 to |rows|
        invariant found.Some? ==>
                    found.value in rows && found.value.apartmentId == a && found.value.strategy.version == version
        invariant found.None? ==> forall j :: 0 <= j < k ==>
                  !(rows[j].apartmentId == a && rows[j].strategy.version == version)
      {
        if rows[k].apartmentId == a && rows[k].strategy.version == version {
          found := Some(rows[k]);
        }
      }
    }

    /** The highest version of an apartment. */
    method Current(a: ApartmentId) returns (current: Option<Strategy>)
      ensures current.Some? ==> IsHighest(rows, a, current.value)
      ensures current.None? ==> forall row :: row in rows ==> row.apartmentId != a
    {
      current := None;
      for k := 0 to |rows|
        invariant current.Some? ==> StrategyRow(a, current.value) in rows
                                    && forall j :: 0 <= j < k && rows[j].apartmentId == a ==>
                                       rows[j].strategy.version <= current.value.version
        invariant current.None? ==> forall j :: 0 <= j < k ==> rows[j].apartmentId != a
      {
        if rows[k].apartmentId == a && (current.None? || rows[k].strategy.version > current.value.version) {
          current := Some(rows[k].strategy);
        }
      }
    }

    /** Inserts the next version; without an existing row the call fails and nothing is inserted. */
    method NewStrategyVersion(a: ApartmentId, changes: Changes) returns (version: Option<int>)
      requires Valid()
      modifies this
      ensures Valid()
      ensures version.None? ==> rows == old(rows) && forall row :: row in rows ==> row.apartmentId != a
      ensures version.Some? ==>
                exists s: Strategy :: IsHighest(old(rows), a, s) && version == Some(s.version + 1)
                                      && rows == old(rows) + [StrategyRow(a, Revise(s, changes))]
    {
      var current := Current(a);
      if current.None? {
        return None;
      }
      assert IsHighest(rows, a, current.value);
      rows := rows + [StrategyRow(a, Revise(current.value, changes))];
      version := Some(current.value.version + 1);
    }
  }

  /** The rows that a seed and successive changes insert for one apartment. */
  function Inserted(a: ApartmentId, seed: Strategy, changes: seq<Changes>): (rows: seq<StrategyRow>)
    ensures |rows| == |changes| + 1
  {
    if changes == [] then [StrategyRow(a, seed)]
    else
      Inserted(a, seed, changes[..|changes| - 1]) + [StrategyRow(a, Folded(seed, changes))]
  }

  /** The field-by-field fold of all changes over the seed. */
  function Folded(seed: Strategy, changes: seq<Changes>): Strategy {
    if changes == [] then seed else Revise(Folded(seed, changes[..|changes| - 1]), changes[|changes| - 1])
  }

  /** value is what the last change that sets this field sets it to, or the seed's where none does. */
  ghost predicate IsLastSet<T>(changes: seq<Changes>, field: Changes -> Option<T>, ofSeed: T, value: T) {
    || (value == ofSeed && forall k :: 0 <= k < |changes| ==> field(changes[k]).None?)
    || exists k :: 0 <= k < |changes| && SetsLast(changes, field, k, value)
  }

  ghost predicate SetsLast<T>(changes: seq<Changes>, field: Changes -> Option<T>, k: int, value: T) {
    && 0 <= k < |changes| && field(changes[k]) == Some(value)
    && forall j :: k < j < |changes| ==> field(changes[j]).None?
  }

  lemma LastSetCarriesOn<T>(front: seq<Changes>, last: Changes, field: Changes -> Option<T>, ofSeed: T, value: T)
    requires IsLastSet(front, field, ofSeed, value)
    ensures IsLastSet(front + [last], field, ofSeed, if field(last).Some? then field(last).value else value)
  {
    var changes := front + [last];
    if field(last).Some? {
      assert SetsLast(changes, field, |front|, field(last).value);
    } else if k :| 0 <= k < |front| && SetsLast(front, field, k, value) {
      assert SetsLast(changes, field, k, value);
    }
  }

  const MARGIN := (c: Changes) => c.targetMargin
  const DISCOUNT := (c: Changes) => c.discount
  const FLOOR_POLICY := (c: Changes) => c.floorPolicyDefault

  /** s has one version more for every change, and each field as it was set last. */
  ghost predicate HasLastSetFields(s: Strategy, seed: Strategy, changes: seq<Changes>) {
    && s.version == seed.version + |changes|
    && IsLastSet(changes, MARGIN, seed.targetMargin, s.targetMargin)
    && IsLastSet(changes, DISCOUNT, seed.discount, s.discount)
    && IsLastSet(changes, FLOOR_POLICY, seed.floorPolicyDefault, s.floorPolicyDefault)
  }

  /** The fold, field by field. */
  lemma {:induction false} FoldedFields(seed: Strategy, changes: seq<Changes>)
    ensures HasLastSetFields(Folded(seed, changes), seed, changes)
  {
    if changes != [] {
      var front, last := changes[..|changes| - 1], changes[|changes| - 1];
      assert changes == front + [last];
      FoldedFields(seed, front);
      var before := Folded(seed, front);
      LastSetCarriesOn(front, last, MARGIN, seed.targetMargin, before.targetMargin);
      LastSetCarriesOn(front, last, DISCOUNT, seed.discount, before.discount);
      LastSetCarriesOn(front, last, FLOOR_POLICY, seed.floorPolicyDefault, before.floorPolicyDefault);
    }
  }

  lemma {:induction false} InsertedVersions(a: ApartmentId, seed: Strategy, changes: seq<Changes>)
    ensures Folded(seed, changes).version == seed.version + |changes|
    ensures forall k :: 0 <= k <= |changes| ==>
              Inserted(a, seed, changes)[k].apartmentId == a
                  && Inserted(a, seed, changes)[k].strategy.version == seed.version + k
    ensures Inserted(a, seed, changes)[|changes|] == StrategyRow(a, Folded(seed, changes))
  {
    if changes != [] {
      InsertedVersions(a, seed, changes[..|changes| - 1]);
    }
  }

  /** Successive inserts build exactly these rows: the current version is the fold so far, and the row
      that NewStrategyVersion inserts is the fold with one change more. */
  lemma InsertingExtendsTheFold(rows: seq<StrategyRow>, a: ApartmentId, seed: Strategy, changes: seq<Changes>,
                                change: Changes, current: Strategy)
    requires forall row :: row in rows && row.apartmentId == a <==> row in Inserted(a, seed, changes)
    requires IsHighest(rows, a, current)
    ensures current == Folded(seed, changes)
    ensures forall row :: row in rows + [StrategyRow(a, Revise(current, change))] && row.apartmentId == a
                          <==> row in Inserted(a, seed, changes + [change])
  {
    var inserted := Inserted(a, seed, changes);
    InsertedVersions(a, seed, changes);
    assert inserted[|changes|] in inserted;
    var k :| 0 <= k < |inserted| && inserted[k] == StrategyRow(a, current);
    assert (changes + [change])[..|changes|] == changes;
  }

  /** Once every inserted row has been delivered, in any order and any number of times, the resolved
      strategy is the fold of all changes: each field as it was set last. */
  lemma DeliveryResolvesTheFold(a: ApartmentId, seed: Strategy, changes: seq<Changes>, delivered: seq<StrategyRow>)
    requires forall row :: row in delivered && row.apartmentId == a <==> row in Inserted(a, seed, changes)
    ensures a in Delivered(delivered) && Delivered(delivered)[a] == Folded(seed, changes)
    ensures HasLastSetFields(Delivered(delivered)[a], seed, changes)
  {
    FoldedFields(seed, changes);
    InsertedVersions(a, seed, changes);
    ResolvesToHighest(delivered, a);
    var rows := Inserted(a, seed, changes);
    assert rows[|changes|] in rows && rows[|changes|] in delivered;
    var resolved := StrategyRow(a, Delivered(delivered)[a]);
    assert resolved in rows;
    var k :| 0 <= k < |rows| && rows[k] == resolved;
  }
}
