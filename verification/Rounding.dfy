/**
 Rounding of exact amounts to whole minor units. Python's `round` takes a tie to
 the even neighbour, JavaScript's `Math.round` takes it up. Amounts are exact
 reals here: the error of the floats that carry them is not modelled.
 */
module Rounding {

  function RoundHalfEven(x: real): int {
    var n := x.Floor;
    var d := x - n as real;
    if d < 0.5 then n else if d > 0.5 then n + 1 else if n % 2 == 0 then n else n + 1
  }

  function RoundHalfUp(x: real): int {
    (x + 0.5).Floor
  }

  predicate Tie(x: real) {
    x - x.Floor as real == 0.5
  }

  /** Half-even rounding is the nearest integer, and of two nearest the even one; nothing else is. */
  lemma HalfEvenIsNearest(x: real, r: int)
    ensures r == RoundHalfEven(x) <==>
              -0.5 <= r as real - x <= 0.5 && ((r as real - x == 0.5 || r as real - x == -0.5) ==> r % 2 == 0)
  {
    var n := x.Floor;
    assert n as real <= x < n as real + 1.0;
    if -0.5 <= r as real - x <= 0.5 {
      assert r == n || r == n + 1;
    }
  }

  /** Half-up rounding is the nearest integer, and of two nearest the greater. */
  lemma HalfUpIsNearest(x: real, r: int)
    ensures r == RoundHalfUp(x) <==> -0.5 < r as real - x <= 0.5
  {
    var y := x + 0.5;
    assert y.Floor as real <= y < y.Floor as real + 1.0;
    if -0.5 < r as real - x <= 0.5 {
      assert r as real <= y < r as real + 1.0;
    }
  }

  lemma HalfEvenMonotone(x: real, y: real)
    requires x <= y
    ensures RoundHalfEven(x) <= RoundHalfEven(y)
  {
    assert x.Floor <= y.Floor;
  }

  lemma HalfEvenOfWhole(n: int)
    ensures RoundHalfEven(n as real) == n && RoundHalfUp(n as real) == n
  {
    HalfEvenIsNearest(n as real, n);
    HalfUpIsNearest(n as real, n);
  }

  /** Parts of a whole: rounding both misses the whole by at most one, and only where both parts are ties of an odd whole. */
  lemma ComplementRounds(x: real, whole: int)
    ensures var sum := RoundHalfEven(x) + RoundHalfEven(whole as real - x);
            && whole - 1 <= sum <= whole + 1
            && (sum == whole <==> !(Tie(x) && whole % 2 == 1))
  {
    var n := x.Floor;
    var y := whole as real - x;
    if x == n as real {
      HalfEvenOfWhole(n);
      HalfEvenOfWhole(whole - n);
      assert y == (whole - n) as real;
    } else {
      assert y.Floor == whole - n - 1;
    }
  }
}
