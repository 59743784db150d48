/** Stage A (stage_cost_enrichment.py): payment lines upserted and pruned to the two latest billing
    periods, and why the pruned state gives the same answer as the full history. */
module CostEnrichment {
  import opened Listings
  import opened Models
  import opened CostAggregation

  const PERIODS_KEPT: nat := 2

  type Lines = map<string, PaymentLine>

  // ---------------------------------------------------------------- the periods kept

  function Newer(ends: set<Date>, end: Date): set<Date> {
    set e | e in ends && e > end
  }

  /** The `keep` most recent distinct period ends. */
  function RetainedPeriodEnds(ends: set<Date>, keep: nat): set<Date> {
    set e | e in ends && |Newer(ends, e)| < keep
  }

  function SetOf(ends: seq<Date>): set<Date> {
    set e | e in ends
  }

  /** They are the first `keep` of the ends sorted in descending order, as the source computes them. */
  lemma RetainedIsSortedPrefix(sorted: seq<Date>, keep: nat)
    requires forall i, j :: 0 <= i < j < |sorted| ==> sorted[i] > sorted[j]
    ensures RetainedPeriodEnds(SetOf(sorted), keep) == SetOf(sorted[..if keep <= |sorted| then keep else |sorted|])
  {
    var ends := SetOf(sorted);
    forall k | 0 <= k < |sorted| ensures |Newer(ends, sorted[k])| == k {
      NewerInSorted(sorted, k);
    }
    var kept := sorted[..if keep <= |sorted| then keep else |sorted|];
    forall e ensures e in RetainedPeriodEnds(ends, keep) <==> e in kept {
      if e in ends {
        var k :| 0 <= k < |sorted| && sorted[k] == e;
        assert k < keep <==> k < |kept|;
        if k < |kept| { assert kept[k] == e; }
      }
    }
  }

  lemma {:induction false} NewerInSorted(sorted: seq<Date>, k: nat)
    requires forall i, j :: 0 <= i < j < |sorted| ==> sorted[i] > sorted[j]
    requires k < |sorted|
    ensures |Newer(SetOf(sorted), sorted[k])| == k
  {
    assert Newer(SetOf(sorted), sorted[k]) == SetOf(sorted[..k]);
    DistinctSetSize(sorted[..k]);
  }

  lemma {:induction false} DistinctSetSize(s: seq<Date>)
    requires forall i, j :: 0 <= i < j < |s| ==> s[i] > s[j]
    ensures |SetOf(s)| == |s|
  {
    if s != [] {
      var front, last := s[..|s| - 1], s[|s| - 1];
      DistinctSetSize(front);
      assert SetOf(s) == SetOf(front) + {last};
    }
  }

  lemma {:induction false} Minimum(ends: set<Date>) returns (least: Date)
    requires ends != {}
    ensures least in ends && forall e :: e in ends ==> least <= e
    decreases ends
  {
    var e := Member(ends);
    if ends == {e} {
      least := e;
    } else {
      var others := ends - {e};
      assert ends == others + {e};
      var rest := Minimum(others);
      least := if rest < e then rest else e;
    }
  }

  /** Whatever has `keep` newer ends has `keep` newer retained ends. */
  lemma {:induction false} NewerAreRetained(ends: set<Date>, keep: nat, end: Date)
    requires |Newer(ends, end)| >= keep
    ensures |Newer(RetainedPeriodEnds(ends, keep), end)| >= keep
    decreases |Newer(ends, end)|
  {
    var newer := Newer(ends, end);
    var retained := RetainedPeriodEnds(ends, keep);
    if |newer| == keep {
      forall e | e in newer ensures e in retained {
        assert Newer(ends, e) <= newer - {e};
        SubsetSize(Newer(ends, e), newer - {e});
      }
      assert Newer(retained, end) == newer;
    } else {
      var least := Minimum(newer);
      assert Newer(ends, least) == newer - {least};
      NewerAreRetained(ends, keep, least);
      SubsetSize(Newer(retained, least), Newer(retained, end));
    }
  }

  /** Pruning before adding loses nothing: top(top(S) + {x}) == top(S + {x}). */
  lemma RetainedAfterAdding(ends: set<Date>, x: Date, keep: nat)
    ensures RetainedPeriodEnds(RetainedPeriodEnds(ends, keep) + {x}, keep) == RetainedPeriodEnds(ends + {x}, keep)
  {
    var retained := RetainedPeriodEnds(ends, keep);
    forall e ensures e in RetainedPeriodEnds(retained + {x}, keep) <==> e in RetainedPeriodEnds(ends + {x}, keep) {
      SubsetSize(Newer(retained + {x}, e), Newer(ends + {x}, e));
      SubsetSize(Newer(ends, e), Newer(ends + {x}, e));
      if e in RetainedPeriodEnds(retained + {x}, keep) {
        SubsetSize(Newer(retained, e), Newer(retained + {x}, e));
        if |Newer(ends, e)| >= keep { NewerAreRetained(ends, keep, e); }
        NothingNewerIsDropped(ends, keep, e);
        assert Newer(ends + {x}, e) == Newer(retained + {x}, e);
      }
    }
  }

  lemma NothingNewerIsDropped(ends: set<Date>, keep: nat, end: Date)
    requires |Newer(ends, end)| < keep
    ensures Newer(RetainedPeriodEnds(ends, keep), end) == Newer(ends, end)
  {
    forall e | e in Newer(ends, end) ensures e in RetainedPeriodEnds(ends, keep) {
      SubsetSize(Newer(ends, e), Newer(ends, end));
    }
  }

  // ---------------------------------------------------------------- upsert and prune

  function Ends(lines: Lines): set<Date> {
    set id | id in lines :: lines[id].periodEnd
  }

  function Prune(lines: Lines): Lines {
    KeepPeriods(lines, RetainedPeriodEnds(Ends(lines), PERIODS_KEPT))
  }

  /** A line stays exactly when at most one period end of the state is newer: no two different ones are. */
  lemma TwoLatestPeriodsStay(lines: Lines, id: string)
    requires id in lines
    ensures id in Prune(lines) <==>
            !exists a, b :: a in lines && b in lines
                            && lines[a].periodEnd > lines[b].periodEnd > lines[id].periodEnd
  {
    var end := lines[id].periodEnd;
    var newer := Newer(Ends(lines), end);
    if a, b :| a in lines && b in lines && lines[a].periodEnd > lines[b].periodEnd > end {
      assert {lines[a].periodEnd, lines[b].periodEnd} <= newer;
      SubsetSize({lines[a].periodEnd, lines[b].periodEnd}, newer);
    } else if newer != {} {
      var least := Minimum(newer);
      var b :| b in lines && lines[b].periodEnd == least;
      assert newer <= {least} by {
        forall e | e in newer ensures e == least {
          var a :| a in lines && lines[a].periodEnd == e;
        }
      }
      SubsetSize(newer, {least});
    }
  }

  function Upsert(state: Lines, line: PaymentLine): Lines {
    Prune(state[line.eventId := line])
  }

  /** The operator's state after a sequence of lines. */
  function Pruned(received: seq<PaymentLine>): Lines {
    if received == [] then map[] else Upsert(Pruned(received[..|received| - 1]), received[|received| - 1])
  }

  /** The latest version of every line ever received. */
  function Full(received: seq<PaymentLine>): Lines {
    if received == [] then map[]
    else
      var last := received[|received| - 1];
      Full(received[..|received| - 1])[last.eventId := last]
  }

  /** No upsert changes the billing_period_end of a line. */
  ghost predicate KeepsEnds(received: seq<PaymentLine>) {
    received != [] ==>
      var front, last := received[..|received| - 1], received[|received| - 1];
      && KeepsEnds(front)
      && (last.eventId in Full(front) ==> Full(front)[last.eventId].periodEnd == last.periodEnd)
  }

  lemma EndsOfPruned(full: Lines)
    ensures Ends(Prune(full)) == RetainedPeriodEnds(Ends(full), PERIODS_KEPT)
  {
    var kept := RetainedPeriodEnds(Ends(full), PERIODS_KEPT);
    forall e | e in kept ensures e in Ends(Prune(full)) {
      var id :| id in full && full[id].periodEnd == e;
      assert id in Prune(full);
    }
  }

  lemma EndsOfPut(lines: Lines, line: PaymentLine)
    requires line.eventId in lines ==> lines[line.eventId].periodEnd == line.periodEnd
    ensures Ends(lines[line.eventId := line]) == Ends(lines) + {line.periodEnd}
  {
    var put := lines[line.eventId := line];
    forall e | e in Ends(lines) ensures e in Ends(put) {
      var id :| id in lines && lines[id].periodEnd == e;
      assert id in put && put[id].periodEnd == e;
    }
    assert line.eventId in put;
  }

  /** A line whose period survives the upsert was not pruned before it. */
  lemma SurvivorWasKept(full: Lines, line: PaymentLine, id: string)
    requires line.eventId in full ==> full[line.eventId].periodEnd == line.periodEnd
    requires id in full && full[id].periodEnd in RetainedPeriodEnds(Ends(full) + {line.periodEnd}, PERIODS_KEPT)
    ensures id in Prune(full)
  {
    var e := full[id].periodEnd;
    assert e in Ends(full);
    SubsetSize(Newer(Ends(full), e), Newer(Ends(full) + {line.periodEnd}, e));
  }

  lemma SameEndsKept(full: Lines, line: PaymentLine)
    requires line.eventId in full ==> full[line.eventId].periodEnd == line.periodEnd
    ensures RetainedPeriodEnds(Ends(Prune(full)[line.eventId := line]), PERIODS_KEPT) ==
            RetainedPeriodEnds(Ends(full[line.eventId := line]), PERIODS_KEPT)
    ensures Ends(full[line.eventId := line]) == Ends(full) + {line.periodEnd}
  {
    EndsOfPut(full, line);
    EndsOfPut(Prune(full), line);
    EndsOfPruned(full);
    RetainedAfterAdding(Ends(full), line.periodEnd, PERIODS_KEPT);
  }

  function KeepPeriods(lines: Lines, kept: set<Date>): Lines {
    map id | id in lines && lines[id].periodEnd in kept :: lines[id]
  }

  lemma SamePeriodsSameLines(lines: Lines, lines': Lines, kept: set<Date>)
    requires forall id :: id in lines ==> id in lines' && lines[id] == lines'[id]
    requires forall id :: id in lines' && lines'[id].periodEnd in kept ==> id in lines
    ensures KeepPeriods(lines, kept) == KeepPeriods(lines', kept)
  {
  }

  lemma UpsertRefines(full: Lines, line: PaymentLine)
    requires line.eventId in full ==> full[line.eventId].periodEnd == line.periodEnd
    ensures Upsert(Prune(full), line) == Prune(full[line.eventId := line])
  {
    var put, fullPut := Prune(full)[line.eventId := line], full[line.eventId := line];
    SameEndsKept(full, line);
    forall id | id in fullPut && fullPut[id].periodEnd in RetainedPeriodEnds(Ends(fullPut), PERIODS_KEPT)
      ensures id in put
    {
      if id != line.eventId {
        SurvivorWasKept(full, line, id);
      }
    }
    SamePeriodsSameLines(put, fullPut, RetainedPeriodEnds(Ends(fullPut), PERIODS_KEPT));
  }

  /** Pruning refines full history: the whole operator state is the two latest periods of the latest
      versions, over every sequence of upserts that never changes a line's billing_period_end. */
  lemma {:induction false} PruningRefinesFullHistory(received: seq<PaymentLine>)
    requires KeepsEnds(received)
    ensures Pruned(received) == Prune(Full(received))
  {
    if received == [] {
      assert Prune(map[]) == map[];
    } else {
      var front, last := received[..|received| - 1], received[|received| - 1];
      PruningRefinesFullHistory(front);
      UpsertRefines(Full(front), last);
    }
  }

  // ---------------------------------------------------------------- the latest period

  /** The line belongs to the latest billing period of the map: what aggregate_cost reads. */
  ghost predicate IsLatest(lines: Lines, id: string) {
    id in lines && forall other :: other in lines ==> lines[other].periodEnd <= lines[id].periodEnd
  }

  /** No upsert moves a line to an earlier billing period. */
  ghost predicate NeverLowers(received: seq<PaymentLine>) {
    received != [] ==>
      var front, last := received[..|received| - 1], received[|received| - 1];
      && NeverLowers(front)
      && (last.eventId in Full(front) ==> Full(front)[last.eventId].periodEnd <= last.periodEnd)
  }

  /** The state holds current versions, and every line it lacks is older than one it holds. */
  ghost predicate Covers(state: Lines, full: Lines) {
    && (forall id :: id in state ==> id in full && state[id] == full[id])
    && (forall id :: id in full && id !in state ==>
          exists newer :: newer in state && full[id].periodEnd < state[newer].periodEnd)
  }

  lemma {:induction false} Maximum(ends: set<Date>) returns (latest: Date)
    requires ends != {}
    ensures latest in ends && forall e :: e in ends ==> e <= latest
    decreases ends
  {
    var e := Member(ends);
    if ends == {e} {
      latest := e;
    } else {
      var others := ends - {e};
      assert ends == others + {e};
      var rest := Maximum(others);
      latest := if rest > e then rest else e;
    }
  }

  /** Pruning keeps the latest period and drops only what is older than it. */
  lemma PruneCovers(lines: Lines) returns (latest: string)
    requires lines != map[]
    ensures latest in Prune(lines) && IsLatest(lines, latest)
    ensures forall id :: id in lines && id !in Prune(lines) ==> lines[id].periodEnd < lines[latest].periodEnd
  {
    var some := Member(lines.Keys);
    assert lines[some].periodEnd in Ends(lines);
    var top := Maximum(Ends(lines));
    latest :| latest in lines && lines[latest].periodEnd == top;
    assert Newer(Ends(lines), top) == {};
    forall id | id in lines ensures lines[id].periodEnd <= top {
      assert lines[id].periodEnd in Ends(lines);
    }
  }

  /** The state holds current versions only. */
  ghost predicate IsCurrent(state: Lines, full: Lines) {
    forall id :: id in state ==> id in full && state[id] == full[id]
  }

  /** State and history have the same latest-period lines, in the same versions. */
  ghost predicate LatestAgree(state: Lines, full: Lines) {
    && (forall id :: IsLatest(state, id) <==> IsLatest(full, id))
    && (forall id :: IsLatest(full, id) ==> id in state && state[id] == full[id])
  }

  lemma CoveredAgrees(state: Lines, full: Lines, id: string)
    requires Covers(state, full)
    ensures IsLatest(state, id) <==> IsLatest(full, id)
  {
    if id in full && id !in state {
      MissingIsNotLatest(state, full, id);
    }
    if IsLatest(state, id) {
      forall other | other in full ensures full[other].periodEnd <= full[id].periodEnd {
        if other !in state {
          var newer :| newer in state && full[other].periodEnd < state[newer].periodEnd;
        }
      }
    }
  }

  /** The latest lines agree exactly when every missing line is older than one that is held. */
  lemma CoversIffLatestAgree(state: Lines, full: Lines)
    requires IsCurrent(state, full)
    ensures Covers(state, full) <==> LatestAgree(state, full)
  {
    if Covers(state, full) {
      forall id ensures IsLatest(state, id) <==> IsLatest(full, id) {
        CoveredAgrees(state, full, id);
      }
    }
    if LatestAgree(state, full) && full != map[] {
      var latest := PruneCovers(full);
      assert IsLatest(full, latest);
      forall id | id in full && id !in state ensures full[id].periodEnd < state[latest].periodEnd {
        assert !IsLatest(full, id);
        assert full[id].periodEnd != full[latest].periodEnd;
      }
    }
  }

  /** Every line missing from the state stays behind one that is held after the upsert: behind the new
      line, or behind a held line that the upsert does not touch. */
  ghost predicate Harmless(state: Lines, full: Lines, line: PaymentLine) {
    forall id :: id in full && id !in state && id != line.eventId ==>
      full[id].periodEnd < line.periodEnd || StaysBehind(state, line.eventId, full[id].periodEnd)
  }

  ghost predicate StaysBehind(state: Lines, except: string, end: Date) {
    exists held :: held in state && held != except && end < state[held].periodEnd
  }

  lemma HarmlessKeepsCover(state: Lines, full: Lines, line: PaymentLine)
    requires Covers(state, full) && Harmless(state, full, line)
    ensures Covers(Upsert(state, line), full[line.eventId := line])
  {
    var put, fullPut := state[line.eventId := line], full[line.eventId := line];
    assert line.eventId in put;
    var latest := PruneCovers(put);
    var state' := Prune(put);
    forall id | id in fullPut && id !in state'
      ensures fullPut[id].periodEnd < state'[latest].periodEnd
    {
      if id !in put {
        assert full[id].periodEnd < line.periodEnd || StaysBehind(state, line.eventId, full[id].periodEnd);
        if !(full[id].periodEnd < line.periodEnd) {
          var held :| held in state && held != line.eventId && full[id].periodEnd < state[held].periodEnd;
          assert held in put;
        }
      }
    }
  }

  lemma CoverNeedsHarmless(state: Lines, full: Lines, line: PaymentLine)
    requires Covers(Upsert(state, line), full[line.eventId := line])
    ensures Harmless(state, full, line)
  {
    var fullPut, state' := full[line.eventId := line], Upsert(state, line);
    forall id | id in full && id !in state && id != line.eventId
      ensures full[id].periodEnd < line.periodEnd || StaysBehind(state, line.eventId, full[id].periodEnd)
    {
      assert id in fullPut && id !in state';
      var newer :| newer in state' && fullPut[id].periodEnd < state'[newer].periodEnd;
      assert newer == line.eventId || newer in state;
    }
  }

  ghost predicate AlwaysHarmless(received: seq<PaymentLine>) {
    received != [] ==>
      var front, last := received[..|received| - 1], received[|received| - 1];
      AlwaysHarmless(front) && Harmless(Pruned(front), Full(front), last)
  }

  /** After each of the upserts, pruned state and full history have the same latest lines. */
  ghost predicate AlwaysAgree(received: seq<PaymentLine>) {
    && LatestAgree(Pruned(received), Full(received))
    && (received != [] ==> AlwaysAgree(received[..|received| - 1]))
  }

  lemma {:induction false} StateIsCurrent(received: seq<PaymentLine>)
    ensures IsCurrent(Pruned(received), Full(received))
  {
    if received != [] {
      StateIsCurrent(received[..|received| - 1]);
    }
  }

  lemma {:induction false} HarmlessCovers(received: seq<PaymentLine>)
    requires AlwaysHarmless(received)
    ensures Covers(Pruned(received), Full(received))
  {
    if received != [] {
      var front, last := received[..|received| - 1], received[|received| - 1];
      HarmlessCovers(front);
      HarmlessKeepsCover(Pruned(front), Full(front), last);
    }
  }

  /** Exactly when pruning is safe: the latest lines agree after every upsert if and only if every
      upsert is harmless. A line may move to an earlier period as long as nothing pruned catches up. */
  lemma {:induction false} PruningIsSafeExactly(received: seq<PaymentLine>)
    ensures AlwaysAgree(received) <==> AlwaysHarmless(received)
  {
    StateIsCurrent(received);
    CoversIffLatestAgree(Pruned(received), Full(received));
    if received != [] {
      var front, last := received[..|received| - 1], received[|received| - 1];
      PruningIsSafeExactly(front);
      if AlwaysHarmless(received) { HarmlessCovers(received); }
      if AlwaysAgree(received) { CoverNeedsHarmless(Pruned(front), Full(front), last); }
    }
  }

  lemma MissingIsNotLatest(state: Lines, full: Lines, id: string)
    requires Covers(state, full) && id in full && id !in state
    ensures !IsLatest(full, id)
  {
    var newer :| newer in state && full[id].periodEnd < state[newer].periodEnd;
    assert newer in full;
  }

  lemma NotLoweringIsHarmless(state: Lines, full: Lines, line: PaymentLine)
    requires Covers(state, full)
    requires line.eventId in full ==> full[line.eventId].periodEnd <= line.periodEnd
    ensures Harmless(state, full, line)
  {
    forall id | id in full && id !in state && id != line.eventId
      ensures full[id].periodEnd < line.periodEnd || StaysBehind(state, line.eventId, full[id].periodEnd)
    {
      var newer :| newer in state && full[id].periodEnd < state[newer].periodEnd;
      assert newer == line.eventId ==> state[newer] == full[newer];
    }
  }

  /** In particular no upsert that leaves its line's period or moves it to a later one does harm. */
  lemma {:induction false} NeverLoweringIsHarmless(received: seq<PaymentLine>)
    requires NeverLowers(received)
    ensures AlwaysHarmless(received)
  {
    if received != [] {
      var front := received[..|received| - 1];
      NeverLoweringIsHarmless(front);
      HarmlessCovers(front);
      NotLoweringIsHarmless(Pruned(front), Full(front), received[|received| - 1]);
    }
  }

  /** So the latest-period lines of the pruned state are those of the full history as long as no upsert
      moves a line to an earlier period; a line's period may otherwise change. */
  lemma LatestLinesAgree(received: seq<PaymentLine>, id: string)
    requires NeverLowers(received)
    ensures IsLatest(Pruned(received), id) <==> IsLatest(Full(received), id)
    ensures IsLatest(Full(received), id) ==> Pruned(received)[id] == Full(received)[id]
  {
    NeverLoweringIsHarmless(received);
    HarmlessCovers(received);
    CoveredAgrees(Pruned(received), Full(received), id);
  }

  lemma OneMore(received: seq<PaymentLine>, line: PaymentLine)
    ensures Full(received + [line]) == Full(received)[line.eventId := line]
    ensures Pruned(received + [line]) == Upsert(Pruned(received), line)
  {
    assert (received + [line])[..|received|] == received;
  }

  lemma PrunedStaysPruned(received: seq<PaymentLine>, line: PaymentLine, id: string)
    requires id !in Pruned(received) && id != line.eventId
    ensures id !in Pruned(received + [line])
  {
    OneMore(received, line);
  }

  lemma LatestOfThree(lines: Lines, a: string, b: string, c: string)
    requires lines.Keys == {a, b, c}
    requires lines[a].periodEnd == 1 && lines[b].periodEnd == 0 && lines[c].periodEnd == 0
    ensures IsLatest(lines, a)
  {
  }

  /** Moving lines to earlier periods can lose lines: once the two newer periods are emptied, a line
      that was pruned behind them is the latest one of the full history. */
  lemma LoweringLosesLines(a: PaymentLine, b: PaymentLine, c: PaymentLine)
    requires a.eventId != b.eventId && b.eventId != c.eventId && a.eventId != c.eventId
    requires a.periodEnd == 1 && b.periodEnd == 2 && c.periodEnd == 3
    ensures var received := [a, b, c, c.(periodEnd := 0), b.(periodEnd := 0)];
            IsLatest(Full(received), a.eventId) && a.eventId !in Pruned(received)
  {
    var c0, b0 := c.(periodEnd := 0), b.(periodEnd := 0);
    var three := [] + [a] + [b] + [c];
    ThreePeriods(a, b, c, three);
    PrunedStaysPruned(three, c0, a.eventId);
    PrunedStaysPruned(three + [c0], b0, a.eventId);
    OneMore(three, c0);
    OneMore(three + [c0], b0);
    LatestOfThree(Full(three + [c0] + [b0]), a.eventId, b.eventId, c.eventId);
    assert three + [c0] + [b0] == [a, b, c, c0, b0];
  }

  lemma ThreePeriods(a: PaymentLine, b: PaymentLine, c: PaymentLine, three: seq<PaymentLine>)
    requires a.eventId != b.eventId && b.eventId != c.eventId && a.eventId != c.eventId
    requires a.periodEnd == 1 && b.periodEnd == 2 && c.periodEnd == 3
    requires three == [] + [a] + [b] + [c]
    ensures Full(three) == map[a.eventId := a, b.eventId := b, c.eventId := c]
    ensures a.eventId !in Pruned(three)
  {
    FullOfThree(a, b, c);
    DistinctLines(a, b, c, three);
    PruningRefinesFullHistory(three);
    OldestOfThree(Full(three), a.eventId, b.eventId, c.eventId);
  }

  lemma FullOfThree(a: PaymentLine, b: PaymentLine, c: PaymentLine)
    ensures Full([] + [a] + [b] + [c]) == map[a.eventId := a, b.eventId := b, c.eventId := c]
  {
    OneMore([], a);
    OneMore([] + [a], b);
    OneMore([] + [a] + [b], c);
  }

  lemma OldestOfThree(lines: Lines, a: string, b: string, c: string)
    requires {a, b, c} <= lines.Keys
    requires lines[a].periodEnd < lines[b].periodEnd < lines[c].periodEnd
    ensures a !in Prune(lines)
  {
    var newer := {lines[b].periodEnd, lines[c].periodEnd};
    assert newer <= Newer(Ends(lines), lines[a].periodEnd);
    SubsetSize(newer, Newer(Ends(lines), lines[a].periodEnd));
  }

  lemma DistinctLines(a: PaymentLine, b: PaymentLine, c: PaymentLine, three: seq<PaymentLine>)
    requires a.eventId != b.eventId && b.eventId != c.eventId && a.eventId != c.eventId
    requires three == [] + [a] + [b] + [c]
    ensures KeepsEnds(three)
  {
    OneMore([], a);
    OneMore([] + [a], b);
    assert ([] + [a])[..0] == [] && ([] + [a] + [b])[..1] == [] + [a] && three[..2] == [] + [a] + [b];
    assert KeepsEnds([] + [a]);
    assert KeepsEnds([] + [a] + [b]);
  }
}
