/** Rounding half away from zero, in exact arithmetic.  Points are held as whole hundredths, so that rounding to two places
    gives an integer and rounding to one place a multiple of ten. */
module Rounding {

  /** The nearest integer, halves away from zero. */
  function RoundAway(x: real): int {
    if x >= 0.0 then (x + 0.5).Floor else -((0.5 - x).Floor)
  }

  lemma FloorBounds(x: real)
    ensures x.Floor as real <= x < x.Floor as real + 1.0
  {
  }

  lemma FloorUnique(x: real, n: int)
    requires n as real <= x < n as real + 1.0
    ensures x.Floor == n
  {
    FloorBounds(x);
    var m := x.Floor;
    assert (m - n) as real < 1.0 && (n - m) as real < 1.0;
  }

  lemma RoundAwayIsNearest(x: real)
    ensures x - 0.5 <= RoundAway(x) as real <= x + 0.5
  {
    FloorBounds(x + 0.5);
    FloorBounds(0.5 - x);
  }

  /** A half is rounded away from zero, and negative values are rounded as their opposites. */
  lemma HalvesGoAway(x: real, n: nat)
    ensures x == n as real + 0.5 ==> RoundAway(x) == n + 1
    ensures RoundAway(-x) == -RoundAway(x)
  {
    if x == n as real + 0.5 {
      FloorUnique(x + 0.5, n + 1);
    }
    if x == 0.0 {
      RoundAwayOfInt(0);
    }
  }

  /** Rounding keeps an integer as it is. */
  lemma RoundAwayOfInt(n: int)
    ensures RoundAway(n as real) == n
  {
    if n >= 0 {
      FloorUnique(n as real + 0.5, n);
    } else {
      FloorUnique(0.5 - n as real, -n);
    }
  }

  lemma RoundAwayMonotone(x: real, y: real)
    requires x <= y
    ensures RoundAway(x) <= RoundAway(y)
  {
    FloorBounds(x + 0.5);
    FloorBounds(y + 0.5);
    FloorBounds(0.5 - x);
    FloorBounds(0.5 - y);
  }

  /** A value rounded to two decimal places, in hundredths. */
  function Hundredths(x: real): int {
    RoundAway(100.0 * x)
  }

  /** A value rounded to one decimal place, in hundredths. */
  function Tenths(x: real): int {
    10 * RoundAway(10.0 * x)
  }

  /** Whole hundredths rounded to one decimal place. */
  function ToTenth(h: int): int {
    if h >= 0 then (h + 5) / 10 * 10 else -((5 - h) / 10 * 10)
  }

  /** Rounding hundredths is rounding the value they stand for. */
  lemma ToTenthIsRounding(h: int)
    ensures ToTenth(h) == Tenths(h as real / 100.0)
  {
    var x := 10.0 * (h as real / 100.0);
    assert x == h as real / 10.0;
    var q := if h >= 0 then (h + 5) / 10 else (5 - h) / 10;
    if h >= 0 {
      assert 10 * q <= h + 5 < 10 * q + 10;
      assert 10.0 * q as real <= h as real + 5.0 < 10.0 * q as real + 10.0;
      FloorUnique(x + 0.5, q);
    } else {
      assert 10 * q <= 5 - h < 10 * q + 10;
      assert 10.0 * q as real <= 5.0 - h as real < 10.0 * q as real + 10.0;
      FloorUnique(0.5 - x, q);
    }
  }

  lemma ToTenthIsNearest(h: int)
    ensures h - 5 <= ToTenth(h) <= h + 5 && ToTenth(h) % 10 == 0
    ensures h % 10 == 0 ==> ToTenth(h) == h
    ensures h >= 0 ==> ToTenth(h) >= 0
  {
  }

  lemma ToTenthMonotone(h: int, k: int)
    requires h <= k
    ensures ToTenth(h) <= ToTenth(k)
  {
  }
}
