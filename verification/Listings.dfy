/** Sums and filters over lists, and what does not depend on the order in which a Python dict
    or a Flink MapState happens to be iterated. */
module Listings {

  function Sum<T>(items: seq<T>, value: T -> real): real {
    if items == [] then 0.0 else Sum(items[..|items| - 1], value) + value(items[|items| - 1])
  }

  function Filter<T(!new)>(items: seq<T>, keep: T -> bool): (kept: seq<T>)
    ensures |kept| <= |items|
    ensures forall x :: x in kept <==> x in items && keep(x)
  {
    if items == [] then []
    else
      var last := items[|items| - 1];
      var front := Filter(items[..|items| - 1], keep);
      assert items == items[..|items| - 1] + [last];
      if keep(last) then front + [last] else front
  }

  function Map<T, U>(items: seq<T>, f: T -> U): (mapped: seq<U>)
    ensures |mapped| == |items|
    ensures forall i :: 0 <= i < |items| ==> mapped[i] == f(items[i])
  {
    seq(|items|, i requires 0 <= i < |items| => f(items[i]))
  }

  ghost predicate Distinct<T>(items: seq<T>) {
    forall i, j :: 0 <= i < j < |items| ==> items[i] != items[j]
  }

  /** keys lists the keys of m, each once, in some order. */
  ghost predicate ListsKeys<K(!new), V>(keys: seq<K>, m: map<K, V>) {
    Distinct(keys) && forall k :: k in keys <==> k in m
  }

  function Values<K(!new), V>(keys: seq<K>, m: map<K, V>): (vs: seq<V>)
    requires forall k :: k in keys ==> k in m
    ensures |vs| == |keys| && forall i :: 0 <= i < |keys| ==> vs[i] == m[keys[i]]
  {
    seq(|keys|, i requires 0 <= i < |keys| => m[keys[i]])
  }

  lemma {:induction false} SumSplit<T>(a: seq<T>, b: seq<T>, value: T -> real)
    ensures Sum(a + b, value) == Sum(a, value) + Sum(b, value)
  {
    if b == [] {
      assert a + b == a;
    } else {
      var front := b[..|b| - 1];
      assert (a + b)[..|a + b| - 1] == a + front;
      SumSplit(a, front, value);
    }
  }

  lemma {:induction false} SumRemove<T>(a: seq<T>, i: nat, value: T -> real)
    requires i < |a|
    ensures Sum(a, value) == Sum(a[..i] + a[i + 1..], value) + value(a[i])
  {
    assert a == a[..i] + ([a[i]] + a[i + 1..]);
    SumSplit(a[..i], [a[i]] + a[i + 1..], value);
    SumSplit([a[i]], a[i + 1..], value);
    SumSplit(a[..i], a[i + 1..], value);
    assert Sum([a[i]], value) == value(a[i]) by { assert [a[i]][..0] == []; }
  }

  lemma MultisetOfRemoved<T>(b: seq<T>, i: nat)
    requires i < |b|
    ensures multiset(b[..i] + b[i + 1..]) == multiset(b) - multiset{b[i]}
  {
    assert b == b[..i] + [b[i]] + b[i + 1..];
  }

  lemma PullLast<T>(a: seq<T>, b: seq<T>) returns (i: nat)
    requires a != [] && multiset(a) == multiset(b)
    ensures i < |b| && b[i] == a[|a| - 1]
    ensures multiset(a[..|a| - 1]) == multiset(b[..i] + b[i + 1..])
  {
    var last := |a| - 1;
    assert a[last] in multiset(b);
    i :| 0 <= i < |b| && b[i] == a[last];
    MultisetOfRemoved(a, last);
    assert a[..last] + a[last + 1..] == a[..last];
    MultisetOfRemoved(b, i);
  }

  /** A sum does not depend on the order of its terms. */
  lemma {:induction false} SumPermuted<T>(a: seq<T>, b: seq<T>, value: T -> real)
    requires multiset(a) == multiset(b)
    ensures Sum(a, value) == Sum(b, value)
    decreases |a|
  {
    if a == [] {
      assert |b| == |multiset(b)| == 0;
    } else {
      var last := a[|a| - 1];
      var front := a[..|a| - 1];
      var i := PullLast(a, b);
      var rest := b[..i] + b[i + 1..];
      SumPermuted(front, rest, value);
      SumRemove(b, i, value);
    }
  }

  lemma {:induction false} SumZero<T>(a: seq<T>, value: T -> real)
    requires forall x :: x in a ==> value(x) == 0.0
    ensures Sum(a, value) == 0.0
  {
    if a != [] {
      assert a == a[..|a| - 1] + [a[|a| - 1]];
      SumZero(a[..|a| - 1], value);
    }
  }

  lemma {:induction false} SumAgrees<T>(a: seq<T>, f: T -> real, g: T -> real)
    requires forall x :: x in a ==> f(x) == g(x)
    ensures Sum(a, f) == Sum(a, g)
  {
    if a != [] {
      assert a == a[..|a| - 1] + [a[|a| - 1]];
      SumAgrees(a[..|a| - 1], f, g);
    }
  }

  lemma {:induction false} SumAdds<T>(a: seq<T>, f: T -> real, g: T -> real, both: T -> real)
    requires forall x :: x in a ==> both(x) == f(x) + g(x)
    ensures Sum(a, both) == Sum(a, f) + Sum(a, g)
  {
    if a != [] {
      assert a == a[..|a| - 1] + [a[|a| - 1]];
      SumAdds(a[..|a| - 1], f, g, both);
    }
  }

  lemma {:induction false} SumScaled<T>(a: seq<T>, f: T -> real, factor: real, scaled: T -> real)
    requires forall x :: x in a ==> scaled(x) == f(x) * factor
    ensures Sum(a, scaled) == Sum(a, f) * factor
  {
    if a != [] {
      assert a == a[..|a| - 1] + [a[|a| - 1]];
      SumScaled(a[..|a| - 1], f, factor, scaled);
    }
  }

  /** Termwise error bounds add up. */
  lemma {:induction false} SumWithin<T>(a: seq<T>, f: T -> real, g: T -> real, bound: T -> real)
    requires forall x :: x in a ==> -bound(x) <= f(x) - g(x) <= bound(x)
    ensures -Sum(a, bound) <= Sum(a, f) - Sum(a, g) <= Sum(a, bound)
  {
    if a != [] {
      assert a == a[..|a| - 1] + [a[|a| - 1]];
      SumWithin(a[..|a| - 1], f, g, bound);
    }
  }

  lemma {:induction false} SumConstant<T>(a: seq<T>, value: T -> real, c: real)
    requires forall x :: x in a ==> value(x) == c
    ensures Sum(a, value) == |a| as real * c
  {
    if a != [] {
      assert a == a[..|a| - 1] + [a[|a| - 1]];
      SumConstant(a[..|a| - 1], value, c);
      assert |a| as real * c == (|a| - 1) as real * c + c;
    }
  }

  /** Summing the kept elements is summing everything with the others counted as zero. */
  lemma {:induction false} SumFiltered<T(!new)>(a: seq<T>, keep: T -> bool, f: T -> real, masked: T -> real)
    requires forall x :: masked(x) == if keep(x) then f(x) else 0.0
    ensures Sum(Filter(a, keep), f) == Sum(a, masked)
  {
    if a != [] {
      SumFiltered(a[..|a| - 1], keep, f, masked);
      var front, last := Filter(a[..|a| - 1], keep), a[|a| - 1];
      if keep(last) {
        assert (front + [last])[..|front|] == front;
      }
    }
  }

  lemma {:induction false} SumMapped<T, U>(a: seq<T>, f: T -> U, g: U -> real, composed: T -> real)
    requires forall x :: x in a ==> composed(x) == g(f(x))
    ensures Sum(Map(a, f), g) == Sum(a, composed)
  {
    if a != [] {
      assert a == a[..|a| - 1] + [a[|a| - 1]];
      assert Map(a, f)[..|a| - 1] == Map(a[..|a| - 1], f);
      SumMapped(a[..|a| - 1], f, g, composed);
    }
  }

  /** A value that sits on one element of a duplicate-free list is the sum. */
  lemma {:induction false} SumOnOne<T>(a: seq<T>, x: T, value: T -> real)
    requires Distinct(a) && x in a && forall y :: y in a && y != x ==> value(y) == 0.0
    ensures Sum(a, value) == value(x)
  {
    var front, last := a[..|a| - 1], a[|a| - 1];
    assert a == front + [last];
    if last == x {
      SumZero(front, value);
    } else {
      SumOnOne(front, x, value);
    }
  }

  /** Filtering keeps every kept element as often as it occurred. */
  lemma {:induction false} FilterCounts<T(!new)>(items: seq<T>, keep: T -> bool, x: T)
    ensures multiset(Filter(items, keep))[x] == if keep(x) then multiset(items)[x] else 0
  {
    if items != [] {
      var front := items[..|items| - 1];
      assert items == front + [items[|items| - 1]];
      FilterCounts(front, keep, x);
    }
  }

  lemma FilterPermuted<T(!new)>(a: seq<T>, b: seq<T>, keep: T -> bool)
    requires multiset(a) == multiset(b)
    ensures multiset(Filter(a, keep)) == multiset(Filter(b, keep))
  {
    forall x ensures multiset(Filter(a, keep))[x] == multiset(Filter(b, keep))[x] {
      FilterCounts(a, keep, x);
      FilterCounts(b, keep, x);
    }
  }

  lemma {:induction false} DistinctCounts<T>(items: seq<T>, x: T)
    requires Distinct(items)
    ensures multiset(items)[x] == if x in items then 1 else 0
  {
    if items != [] {
      var front := items[..|items| - 1];
      assert items == front + [items[|items| - 1]];
      DistinctCounts(front, x);
    }
  }

  lemma {:induction false} FilterDistinct<T(!new)>(items: seq<T>, keep: T -> bool)
    requires Distinct(items)
    ensures Distinct(Filter(items, keep))
  {
    if items != [] {
      var front := items[..|items| - 1];
      assert items == front + [items[|items| - 1]];
      FilterDistinct(front, keep);
    }
  }

  lemma SameElementsPermute<T(!new)>(a: seq<T>, b: seq<T>)
    requires Distinct(a) && Distinct(b)
    requires forall x :: x in a <==> x in b
    ensures multiset(a) == multiset(b)
  {
    forall x ensures multiset(a)[x] == multiset(b)[x] {
      DistinctCounts(a, x);
      DistinctCounts(b, x);
    }
  }

  lemma {:induction false} MapPermuted<T, U>(a: seq<T>, b: seq<T>, f: T -> U)
    requires multiset(a) == multiset(b)
    ensures multiset(Map(a, f)) == multiset(Map(b, f))
    decreases |a|
  {
    if a == [] {
      assert |b| == |multiset(b)| == 0;
    } else {
      var last := a[|a| - 1];
      var front := a[..|a| - 1];
      var i := PullLast(a, b);
      var rest := b[..i] + b[i + 1..];
      MapPermuted(front, rest, f);
      assert Map(a, f) == Map(front, f) + [f(last)];
      assert Map(b, f) == Map(b[..i], f) + [f(last)] + Map(b[i + 1..], f);
      assert Map(rest, f) == Map(b[..i], f) + Map(b[i + 1..], f);
    }
  }

  /** Filtering the values of a map, whatever order its keys are listed in, is filtering its keys. */
  lemma {:induction false} FilterValues<K(!new), V(!new)>(keys: seq<K>, m: map<K, V>, keep: V -> bool, value: K -> V)
    requires forall k :: k in keys ==> k in m && value(k) == m[k]
    ensures Filter(Values(keys, m), keep) == Map(Filter(keys, k => keep(value(k))), value)
  {
    var keepKey := (k: K) => keep(value(k));
    if keys == [] {
    } else {
      var front := keys[..|keys| - 1];
      var last := keys[|keys| - 1];
      assert keys == front + [last];
      FilterValues(front, m, keep, value);
      assert Values(keys, m)[..|keys| - 1] == Values(front, m);
    }
  }

  /** Two maps that hold the same entries among those that pass the filter list the same
      filtered values, up to order. */
  lemma FilteredValuesPermute<K(!new), V(!new)>(keys: seq<K>, m: map<K, V>, keys': seq<K>, m': map<K, V>,
                                    keep: V -> bool, default: V)
    requires ListsKeys(keys, m) && ListsKeys(keys', m')
    requires forall k :: (k in m && keep(m[k])) <==> (k in m' && keep(m'[k]))
    requires forall k :: k in m && keep(m[k]) && k in m' ==> m[k] == m'[k]
    ensures multiset(Filter(Values(keys, m), keep)) == multiset(Filter(Values(keys', m'), keep))
  {
    var value := (k: K) => if k in m then m[k] else default;
    var value' := (k: K) => if k in m' then m'[k] else default;
    var kept := Filter(keys, k => keep(value(k)));
    var kept' := Filter(keys', k => keep(value'(k)));
    FilterValues(keys, m, keep, value);
    FilterValues(keys', m', keep, value');
    FilterDistinct(keys, k => keep(value(k)));
    FilterDistinct(keys', k => keep(value'(k)));
    forall k ensures k in kept <==> k in kept' {
      assert k in kept <==> k in m && keep(m[k]);
      assert k in kept' <==> k in m' && keep(m'[k]);
    }
    SameElementsPermute(kept, kept');
    MapPermuted(kept, kept', value);
    assert Map(kept', value) == Map(kept', value') by {
      forall i | 0 <= i < |kept'| ensures value(kept'[i]) == value'(kept'[i]) {
        assert kept'[i] in kept' && kept'[i] in kept;
      }
    }
  }

  /** Two listings of the same map list the same values. */
  lemma ValuesPermute<K(!new), V(!new)>(keys: seq<K>, keys': seq<K>, m: map<K, V>, default: V)
    requires ListsKeys(keys, m) && ListsKeys(keys', m)
    ensures multiset(Values(keys, m)) == multiset(Values(keys', m))
  {
    var value := (k: K) => if k in m then m[k] else default;
    assert Values(keys, m) == Map(keys, value);
    assert Values(keys', m) == Map(keys', value);
    SameElementsPermute(keys, keys');
    MapPermuted(keys, keys', value);
  }

  lemma {:induction false} FilterAppend<T(!new)>(a: seq<T>, b: seq<T>, keep: T -> bool)
    ensures Filter(a + b, keep) == Filter(a, keep) + Filter(b, keep)
  {
    if b == [] {
      assert a + b == a;
    } else {
      assert (a + b)[..|a + b| - 1] == a + b[..|b| - 1];
      FilterAppend(a, b[..|b| - 1], keep);
    }
  }

  lemma {:induction false} FilterAll<T(!new)>(items: seq<T>, keep: T -> bool)
    requires forall x :: x in items ==> keep(x)
    ensures Filter(items, keep) == items
  {
    if items != [] {
      assert items == items[..|items| - 1] + [items[|items| - 1]];
      FilterAll(items[..|items| - 1], keep);
    }
  }

  lemma {:induction false} FilterNone<T(!new)>(items: seq<T>, keep: T -> bool)
    requires forall x :: x in items ==> !keep(x)
    ensures Filter(items, keep) == []
  {
    if items != [] {
      assert items == items[..|items| - 1] + [items[|items| - 1]];
      FilterNone(items[..|items| - 1], keep);
    }
  }

  lemma FilterOneMoreValue<K(!new), V(!new)>(keys: seq<K>, last: K, m: map<K, V>, keep: V -> bool)
    requires last in m && forall k :: k in keys ==> k in m
    ensures Filter(Values(keys + [last], m), keep) ==
            if keep(m[last]) then Filter(Values(keys, m), keep) + [m[last]] else Filter(Values(keys, m), keep)
  {
    var values := Values(keys + [last], m);
    assert values == Values(keys, m) + [m[last]];
    assert values[..|values| - 1] == Values(keys, m);
  }

  /** Dropping keys whose value does not pass the filter changes nothing that passes it. */
  lemma {:induction false} FilterOfSubmap<K(!new), V(!new)>(keys: seq<K>, m: map<K, V>, part: map<K, V>,
                                                            inPart: K -> bool,
                                                           keep: V -> bool)
    requires forall k :: inPart(k) <==> k in part
    requires forall k :: k in keys ==> k in m
    requires forall k :: k in keys && k in part ==> part[k] == m[k]
    requires forall k :: k in keys && k !in part ==> !keep(m[k])
    ensures Filter(Values(keys, m), keep) == Filter(Values(Filter(keys, inPart), part), keep)
  {
    if keys != [] {
      var front, last := keys[..|keys| - 1], keys[|keys| - 1];
      assert keys == front + [last];
      FilterOfSubmap(front, m, part, inPart, keep);
      assert Values(keys, m)[..|keys| - 1] == Values(front, m);
      if last in part {
        assert Filter(keys, inPart) == Filter(front, inPart) + [last];
        FilterOneMoreValue(Filter(front, inPart), last, part, keep);
      }
    }
  }

  // ---------------------------------------------------------------- Python's stable sort

  ghost predicate SortedBy<T>(items: seq<T>, lte: (T, T) -> bool) {
    forall j, k :: 0 <= j < k < |items| ==> lte(items[j], items[k])
  }

  ghost predicate TotalPreorder<T(!new)>(lte: (T, T) -> bool) {
    && (forall a, b :: lte(a, b) || lte(b, a))
    && (forall a, b, c :: lte(a, b) && lte(b, c) ==> lte(a, c))
  }

  function Insert<T>(ordered: seq<T>, x: T, lte: (T, T) -> bool): (inserted: seq<T>)
    ensures forall y :: y in inserted ==> y in ordered || y == x
  {
    if ordered == [] || lte(ordered[|ordered| - 1], x) then ordered + [x]
    else Insert(ordered[..|ordered| - 1], x, lte) + [ordered[|ordered| - 1]]
  }

  lemma {:induction false} InsertSorted<T(!new)>(ordered: seq<T>, x: T, lte: (T, T) -> bool)
    requires TotalPreorder(lte) && SortedBy(ordered, lte)
    ensures SortedBy(Insert(ordered, x, lte), lte)
  {
    if !(ordered == [] || lte(ordered[|ordered| - 1], x)) {
      var front, last := ordered[..|ordered| - 1], ordered[|ordered| - 1];
      InsertSorted(front, x, lte);
      var rest := Insert(front, x, lte);
      forall j | 0 <= j < |rest| ensures lte(rest[j], last) {
        assert rest[j] in rest;
      }
    } else if ordered != [] {
      forall j | 0 <= j < |ordered| ensures lte(ordered[j], x) {
        assert lte(ordered[j], ordered[|ordered| - 1]);
      }
    }
  }

  lemma {:induction false} InsertPermutes<T>(ordered: seq<T>, x: T, lte: (T, T) -> bool)
    ensures multiset(Insert(ordered, x, lte)) == multiset(ordered) + multiset{x}
  {
    if !(ordered == [] || lte(ordered[|ordered| - 1], x)) {
      assert ordered == ordered[..|ordered| - 1] + [ordered[|ordered| - 1]];
      InsertPermutes(ordered[..|ordered| - 1], x, lte);
    }
  }

  function Sort<T(!new)>(items: seq<T>, lte: (T, T) -> bool): (ordered: seq<T>)
    requires TotalPreorder(lte)
    ensures multiset(ordered) == multiset(items)
    ensures SortedBy(ordered, lte)
  {
    if items == [] then []
    else
      var front, last := items[..|items| - 1], items[|items| - 1];
      assert items == front + [last];
      InsertSorted(Sort(front, lte), last, lte);
      InsertPermutes(Sort(front, lte), last, lte);
      Insert(Sort(front, lte), last, lte)
  }

  lemma SameMembers<T>(a: seq<T>, b: seq<T>)
    requires multiset(a) == multiset(b)
    ensures |a| == |b| && forall x :: x in a <==> x in b
  {
    assert |a| == |multiset(a)| && |b| == |multiset(b)|;
    forall x ensures x in a <==> x in b {
      assert x in a <==> x in multiset(a);
      assert x in b <==> x in multiset(b);
    }
  }

  // ---------------------------------------------------------------- walking a set or a map

  lemma SubsetSize<T>(a: set<T>, b: set<T>)
    requires a <= b
    ensures |a| <= |b|
  {
    assert b == a + (b - a);
  }

  lemma {:induction false} Listed<T>(all: set<T>) returns (items: seq<T>)
    ensures Distinct(items) && forall x :: x in items <==> x in all
    decreases all
  {
    if all == {} {
      items := [];
    } else {
      var x := Member(all);
      var rest := Listed(all - {x});
      items := rest + [x];
    }
  }

  /** The keys of a map, in the order in which it happens to be iterated. */
  method IterationOrder<K(==, !new), V>(m: map<K, V>) returns (keys: seq<K>)
    ensures ListsKeys(keys, m)
  {
    keys := [];
    var todo := m.Keys;
    while todo != {}
      invariant todo <= m.Keys && Distinct(keys)
      invariant forall k :: k in keys <==> k in m && k !in todo
      decreases todo
    {
      var k :| k in todo;
      keys := keys + [k];
      todo := todo - {k};
    }
  }

  lemma Member<T>(all: set<T>) returns (x: T)
    requires all != {}
    ensures x in all
  {
    x :| x in all;
  }

  lemma WalkBegins<T>(all: set<T>)
    ensures all - all == {} && all - {} == all
  {
  }

  lemma WalkStep<T>(all: set<T>, todo: set<T>, x: T)
    requires x in todo && todo <= all
    ensures x in all && x !in all - todo
    ensures all - todo + {x} == all - (todo - {x})
    ensures todo - {x} <= all && todo - {x} < todo
  {
  }
}
