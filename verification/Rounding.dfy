/** Python's `round(x, d)` on exact decimals, for the three precisions the repository uses:
    2 digits (EUR amounts), 4 digits (rates and margins) and 6 digits (allocation weights).
    Ties go to the even neighbour, as in Python 3. */
module Rounding {

  function Abs(x: real): (r: real)
    ensures r >= 0.0 && r >= x && r >= -x && (r == x || r == -x)
  {
    if x < 0.0 then -x else x
  }

  /** The nearest integer to x; on a tie, the even one. */
  function Nearest(x: real): (n: int)
    ensures x - 0.5 <= n as real <= x + 0.5
  {
    var below := x.Floor;
    var rest := x - below as real;
    if rest < 0.5 || (rest == 0.5 && below % 2 == 0) then below else below + 1
  }

  /** The nearest integer exactly: none is nearer, and of two that are equally near it is the even one. */
  lemma NearestExactly(x: real, n: int)
    ensures Nearest(x) == n <==> Abs(n as real - x) <= 0.5 && (Abs(n as real - x) == 0.5 ==> n % 2 == 0)
  {
  }

  lemma NearestMonotone(x: real, y: real)
    requires x <= y
    ensures Nearest(x) <= Nearest(y)
  {
    assert x.Floor <= y.Floor;
    if x.Floor < y.Floor {
      assert Nearest(x) <= x.Floor + 1;
    }
  }

  lemma NearestOfInt(n: int)
    ensures Nearest(n as real) == n
  {
    assert (n as real).Floor == n;
  }

  function Round2(x: real): (r: real)
    ensures x - 0.005 <= r <= x + 0.005
  {
    Nearest(x * 100.0) as real / 100.0
  }

  function Round4(x: real): (r: real)
    ensures x - 0.00005 <= r <= x + 0.00005
  {
    Nearest(x * 10000.0) as real / 10000.0
  }

  function Round6(x: real): (r: real)
    ensures x - 0.0000005 <= r <= x + 0.0000005
  {
    Nearest(x * 1000000.0) as real / 1000000.0
  }

  /** x is a whole number of cents. */
  predicate IsCents(x: real) {
    (x * 100.0).Floor as real == x * 100.0
  }

  lemma Round2IsCents(x: real)
    ensures IsCents(Round2(x))
  {
    assert Round2(x) * 100.0 == Nearest(x * 100.0) as real;
  }

  lemma Round2OfCents(x: real)
    requires IsCents(x)
    ensures Round2(x) == x
  {
    NearestOfInt((x * 100.0).Floor);
  }

  lemma Round2Monotone(x: real, y: real)
    requires x <= y
    ensures Round2(x) <= Round2(y)
  {
    NearestMonotone(x * 100.0, y * 100.0);
  }

  lemma CentsAdd(x: real, y: real)
    requires IsCents(x) && IsCents(y)
    ensures IsCents(x + y)
  {
    var k := (x * 100.0).Floor + (y * 100.0).Floor;
    assert (x + y) * 100.0 == k as real;
  }

  /** The largest cents price not above x never beats a cents cost that x covers. */
  lemma Round2KeepsCentsBound(x: real, bound: real)
    requires IsCents(bound) && bound <= x
    ensures bound <= Round2(x)
  {
    Round2Monotone(bound, x);
    Round2OfCents(bound);
  }
}
