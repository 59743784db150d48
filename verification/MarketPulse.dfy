/** The market pulse accumulator (market_pulse.py): a weighted average that may be folded and merged
    in any grouping and any order. */
module MarketPulse {
  import opened Wrappers
  import opened Listings

  /** One blended snapshot: its rate and the sample size that weighs it. */
  datatype Snapshot = Snapshot(rate: real, sampleSize: int)

  /** min and max are absent where the source holds the infinities it starts from. */
  datatype Accumulator = Accumulator(
    weightedSum: real,
    weightTotal: int,
    min: Option<real>,
    max: Option<real>,
    count: nat)

  datatype Pulse = Pulse(avg: real, min: real, max: real, count: nat)

  const EMPTY := Accumulator(0.0, 0, None, None, 0)

  function Least(a: Option<real>, b: Option<real>): Option<real> {
    if a.None? then b else if b.None? || a.value <= b.value then a else b
  }

  function Greatest(a: Option<real>, b: Option<real>): Option<real> {
    if a.None? then b else if b.None? || a.value >= b.value then a else b
  }

  function Weighted(e: Snapshot): real {
    e.rate * e.sampleSize as real
  }

  function Add(e: Snapshot, acc: Accumulator): Accumulator {
    Accumulator(
      acc.weightedSum + Weighted(e), acc.weightTotal + e.sampleSize,
      Least(acc.min, Some(e.rate)), Greatest(acc.max, Some(e.rate)), acc.count + 1)
  }

  function Merge(a: Accumulator, b: Accumulator): Accumulator {
    Accumulator(
      a.weightedSum + b.weightedSum, a.weightTotal + b.weightTotal,
      Least(a.min, b.min), Greatest(a.max, b.max), a.count + b.count)
  }

  /** None where the source divides by zero or has no price to show. */
  function GetResult(acc: Accumulator): Option<Pulse> {
    if acc.weightTotal == 0 || acc.min.None? || acc.max.None? then None
    else Some(Pulse(acc.weightedSum / acc.weightTotal as real, acc.min.value, acc.max.value, acc.count))
  }

  function Fold(events: seq<Snapshot>): Accumulator {
    if events == [] then EMPTY else Add(events[|events| - 1], Fold(events[..|events| - 1]))
  }

  // ---------------------------------------------------------------- merging

  lemma AddThenMerge(e: Snapshot, a: Accumulator, b: Accumulator)
    ensures Add(e, Merge(a, b)) == Merge(a, Add(e, b))
  {
  }

  lemma AddsCommute(e: Snapshot, f: Snapshot, acc: Accumulator)
    ensures Add(e, Add(f, acc)) == Add(f, Add(e, acc))
  {
  }

  /** Folding is a homomorphism: merging the folds of two parts is folding the whole. */
  lemma {:induction false} MergeOfFolds(a: seq<Snapshot>, b: seq<Snapshot>)
    ensures Merge(Fold(a), Fold(b)) == Fold(a + b)
  {
    if b == [] {
      assert a + b == a;
    } else {
      var front, last := b[..|b| - 1], b[|b| - 1];
      MergeOfFolds(a, front);
      FoldOfMore(b);
      FoldOfAppended(a, b);
      AddThenMerge(last, Fold(a), Fold(front));
    }
  }

  lemma FoldOfAppended(a: seq<Snapshot>, b: seq<Snapshot>)
    requires b != []
    ensures Fold(a + b) == Add(b[|b| - 1], Fold(a + b[..|b| - 1]))
  {
    assert (a + b)[..|a + b| - 1] == a + b[..|b| - 1];
  }

  lemma FoldOfMore(events: seq<Snapshot>)
    requires events != []
    ensures Fold(events) == Add(events[|events| - 1], Fold(events[..|events| - 1]))
  {
  }

  /** How the events of a window may have been grouped before they were merged. */
  datatype Grouping = Folded(events: seq<Snapshot>) | Merged(left: Grouping, right: Grouping)

  function EventsOf(g: Grouping): seq<Snapshot> {
    match g
    case Folded(events) => events
    case Merged(left, right) => EventsOf(left) + EventsOf(right)
  }

  function AccumulatorOf(g: Grouping): Accumulator {
    match g
    case Folded(events) => Fold(events)
    case Merged(left, right) => Merge(AccumulatorOf(left), AccumulatorOf(right))
  }

  lemma {:induction false} GroupingIsTheFold(g: Grouping)
    ensures AccumulatorOf(g) == Fold(EventsOf(g))
  {
    match g
    case Folded(events) =>
    case Merged(left, right) =>
      GroupingIsTheFold(left);
      GroupingIsTheFold(right);
      MergeOfFolds(EventsOf(left), EventsOf(right));
  }

  lemma {:induction false} FoldPulledOut(a: seq<Snapshot>, i: nat)
    requires i < |a|
    ensures Fold(a) == Add(a[i], Fold(a[..i] + a[i + 1..]))
  {
    var front, last := a[..|a| - 1], a[|a| - 1];
    FoldOfMore(a);
    if i == |a| - 1 {
      assert a[..i] + a[i + 1..] == front;
    } else {
      var rest := a[..i] + a[i + 1..];
      assert rest[..|rest| - 1] == front[..i] + front[i + 1..];
      FoldOfMore(rest);
      FoldPulledOut(front, i);
      AddsCommute(last, a[i], Fold(front[..i] + front[i + 1..]));
    }
  }

  lemma {:induction false} FoldPermuted(a: seq<Snapshot>, b: seq<Snapshot>)
    requires multiset(a) == multiset(b)
    ensures Fold(a) == Fold(b)
    decreases |a|
  {
    if a == [] {
      assert |b| == |multiset(b)| == 0;
    } else {
      var i := PullLast(a, b);
      FoldPermuted(a[..|a| - 1], b[..i] + b[i + 1..]);
      FoldPulledOut(b, i);
    }
  }

  /** Any two ways of splitting, ordering and merging the same events give the same accumulator, hence
      the same published result. */
  lemma GroupingsAgree(g: Grouping, h: Grouping)
    requires multiset(EventsOf(g)) == multiset(EventsOf(h))
    ensures AccumulatorOf(g) == AccumulatorOf(h) && GetResult(AccumulatorOf(g)) == GetResult(AccumulatorOf(h))
  {
    GroupingIsTheFold(g);
    GroupingIsTheFold(h);
    FoldPermuted(EventsOf(g), EventsOf(h));
  }

  // ---------------------------------------------------------------- the average

  /** The weighted sum lies between the extremes times the total weight. */
  ghost predicate Balanced(acc: Accumulator) {
    && acc.weightTotal >= 0
    && (acc.min.None? ==> acc == EMPTY)
    && (acc.min.Some? <==> acc.max.Some?)
    && (acc.min.Some? ==> acc.min.value <= acc.max.value
                          && acc.min.value * acc.weightTotal as real <= acc.weightedSum
                             <= acc.max.value * acc.weightTotal as real)
  }

  lemma Scale(low: real, high: real, w: real)
    requires low <= high && w >= 0.0
    ensures low * w <= high * w
  {
  }

  lemma AddKeepsLower(low: real, low': real, rate: real, sum: real, total: int, w: int)
    requires low' <= low && low' <= rate && total >= 0 && w >= 0
    requires low * total as real <= sum
    ensures low' * (total + w) as real <= sum + rate * w as real
  {
    Scale(low', low, total as real);
    Scale(low', rate, w as real);
    assert low' * (total + w) as real == low' * total as real + low' * w as real;
  }

  lemma AddKeepsUpper(high: real, high': real, rate: real, sum: real, total: int, w: int)
    requires high <= high' && rate <= high' && total >= 0 && w >= 0
    requires sum <= high * total as real
    ensures sum + rate * w as real <= high' * (total + w) as real
  {
    Scale(high, high', total as real);
    Scale(rate, high', w as real);
    assert high' * (total + w) as real == high' * total as real + high' * w as real;
  }

  lemma AddKeepsBalance(e: Snapshot, acc: Accumulator)
    requires Balanced(acc) && e.sampleSize >= 0
    ensures Balanced(Add(e, acc))
  {
    if acc.min.Some? {
      var after := Add(e, acc);
      AddKeepsLower(acc.min.value, after.min.value, e.rate, acc.weightedSum, acc.weightTotal, e.sampleSize);
      AddKeepsUpper(acc.max.value, after.max.value, e.rate, acc.weightedSum, acc.weightTotal, e.sampleSize);
    }
  }

  lemma {:induction false} FoldIsBalanced(events: seq<Snapshot>)
    requires forall k :: 0 <= k < |events| ==> events[k].sampleSize >= 1
    ensures Balanced(Fold(events)) && Fold(events).weightTotal >= |events| && (events != [] ==> Fold(events).min.Some?)
  {
    if events != [] {
      FoldIsBalanced(events[..|events| - 1]);
      AddKeepsBalance(events[|events| - 1], Fold(events[..|events| - 1]));
    }
  }

  lemma SignOfFactor(x: real, w: real)
    requires w > 0.0 && x * w >= 0.0
    ensures x >= 0.0
  {
    assert x == x * w / w;
  }

  lemma DividedBetween(low: real, high: real, sum: real, w: real)
    requires w > 0.0 && low * w <= sum <= high * w
    ensures low <= sum / w <= high
  {
    var q := sum / w;
    assert q * w == sum;
    assert (q - low) * w == sum - low * w;
    assert (high - q) * w == high * w - sum;
    SignOfFactor(q - low, w);
    SignOfFactor(high - q, w);
  }

  lemma Leasts(a: Option<real>, b: real)
    ensures Least(a, Some(b)).Some? && Least(a, Some(b)).value <= b && (a.Some? ==> Least(a, Some(b)).value <= a.value)
    ensures Greatest(a, Some(b)).Some? && Greatest(a, Some(b)).value >= b
            && (a.Some? ==> Greatest(a, Some(b)).value >= a.value)
  {
  }

  /** The published extremes are rates of the window, and no rate of the window is beyond them. */
  lemma {:induction false} ExtremesAreAttained(events: seq<Snapshot>)
    requires events != []
    ensures Fold(events).min.Some? && Fold(events).max.Some?
    ensures forall k :: 0 <= k < |events| ==> Fold(events).min.value <= events[k].rate <= Fold(events).max.value
    ensures exists k :: 0 <= k < |events| && events[k].rate == Fold(events).min.value
    ensures exists k :: 0 <= k < |events| && events[k].rate == Fold(events).max.value
  {
    var front, last := events[..|events| - 1], events[|events| - 1];
    FoldOfMore(events);
    if front != [] {
      ExtremesAreAttained(front);
      Leasts(Fold(front).min, last.rate);
      Leasts(Fold(front).max, last.rate);
      var low :| 0 <= low < |front| && front[low].rate == Fold(front).min.value;
      var high :| 0 <= high < |front| && front[high].rate == Fold(front).max.value;
      assert events[low] == front[low] && events[high] == front[high];
      assert events[|events| - 1] == last;
    }
  }

  lemma BalancedResult(acc: Accumulator)
    requires Balanced(acc) && acc.weightTotal > 0
    ensures GetResult(acc).Some?
    ensures var pulse := GetResult(acc).value; pulse.min <= pulse.avg <= pulse.max
  {
    DividedBetween(acc.min.value, acc.max.value, acc.weightedSum, acc.weightTotal as real);
  }

  /** With positive weights every window that has an event has a result, and its weighted average lies
      between the lowest and the highest rate. */
  lemma AverageIsBetweenExtremes(g: Grouping)
    requires EventsOf(g) != [] && forall k :: 0 <= k < |EventsOf(g)| ==> EventsOf(g)[k].sampleSize >= 1
    ensures GetResult(AccumulatorOf(g)).Some?
    ensures var pulse := GetResult(AccumulatorOf(g)).value; pulse.min <= pulse.avg <= pulse.max
  {
    GroupingIsTheFold(g);
    FoldIsBalanced(EventsOf(g));
    BalancedResult(AccumulatorOf(g));
  }

  // ---------------------------------------------------------------- what the window shows

  function WeightOf(e: Snapshot): real { e.sampleSize as real }

  function RateTimesWeight(e: Snapshot): real { e.rate * e.sampleSize as real }

  /** The fold's sums are over all events of the window, each once. */
  lemma {:induction false} FoldSums(events: seq<Snapshot>)
    ensures Fold(events).weightedSum == Sum(events, RateTimesWeight)
    ensures Fold(events).weightTotal as real == Sum(events, WeightOf)
    ensures Fold(events).count == |events|
  {
    if events != [] {
      FoldSums(events[..|events| - 1]);
    }
  }

  lemma Times(sum: real, w: real)
    requires w != 0.0
    ensures sum / w * w == sum
  {
  }

  /** The average, times the weights, is the weighted sum. */
  predicate IsAverage(avg: real, weights: real, sum: real) {
    avg * weights == sum
  }

  lemma ResultIs(acc: Accumulator)
    requires GetResult(acc).Some?
    ensures var pulse := GetResult(acc).value;
            && IsAverage(pulse.avg, acc.weightTotal as real, acc.weightedSum)
            && acc.min == Some(pulse.min) && acc.max == Some(pulse.max) && pulse.count == acc.count
  {
    Times(acc.weightedSum, acc.weightTotal as real);
  }

  /** What a window shows, however it was folded and merged: the average that the weighted rates come to, the
      attained extremes, and how many events there were. */
  lemma PulseExactly(g: Grouping)
    requires GetResult(AccumulatorOf(g)).Some?
    ensures var pulse, events := GetResult(AccumulatorOf(g)).value, EventsOf(g);
            && IsAverage(pulse.avg, Sum(events, WeightOf), Sum(events, RateTimesWeight))
            && pulse.count == |events| > 0
            && (forall k :: 0 <= k < |events| ==> pulse.min <= events[k].rate <= pulse.max)
            && (exists k :: 0 <= k < |events| && events[k].rate == pulse.min)
            && (exists k :: 0 <= k < |events| && events[k].rate == pulse.max)
  {
    GroupingIsTheFold(g);
    FoldSums(EventsOf(g));
    ResultIs(Fold(EventsOf(g)));
    if EventsOf(g) != [] {
      ExtremesAreAttained(EventsOf(g));
    }
  }
}
