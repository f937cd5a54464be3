/** Floats modelled as reals: bounds, Python's `int()`, and rounding to a grid. */
module Reals {

  function Min(a: real, b: real): real { if a <= b then a else b }

  function Max(a: real, b: real): real { if a >= b then a else b }

  /** Python's `int()`: truncation toward zero. */
  function Truncate(x: real): int { if x >= 0.0 then x.Floor else -((-x).Floor) }

  lemma TruncateMonotone(x: real, y: real)
    requires x <= y
    ensures Truncate(x) <= Truncate(y)
  {
  }

  const UNIT4 := 0.0001
  const UNIT2 := 0.01

  function Abs(x: real): (r: real)
    ensures r >= 0.0 && -r <= x <= r
  {
    if x >= 0.0 then x else -x
  }

  /** `r` is a multiple of `unit` at most half a unit away from `x`; ties may go either way. */
  ghost predicate Nearest(x: real, r: real, unit: real) {
    Abs(x - r) <= unit / 2.0 && exists k: int :: r == Grid(k, unit)
  }

  function Grid(k: int, unit: real): real { k as real * unit }

  lemma GridMonotone(a: int, b: int, unit: real)
    requires unit > 0.0
    ensures a < b ==> Grid(a, unit) + unit <= Grid(b, unit)
  {
    if a < b {
      var gap := (b - a) as real;
      assert gap * unit >= 1.0 * unit;
      assert Grid(b, unit) == Grid(a, unit) + gap * unit;
    }
  }

  /** Rounding to a grid cannot leave an interval whose ends are on the grid. */
  lemma NearestStaysInside(x: real, r: real, unit: real, lo: int, hi: int)
    requires unit > 0.0 && Nearest(x, r, unit) && Grid(lo, unit) <= x <= Grid(hi, unit)
    ensures Grid(lo, unit) <= r <= Grid(hi, unit)
  {
    var k: int :| r == Grid(k, unit);
    GridMonotone(k, lo, unit);
    GridMonotone(hi, k, unit);
    hide Grid;
    assert k == lo || k == hi || (lo < k < hi) || k < lo || k > hi;
    GridMonotone(lo, k, unit);
    GridMonotone(k, hi, unit);
  }

  /** A value on the grid is its own rounding. */
  lemma NearestOnGrid(k: int, r: real, unit: real)
    requires unit > 0.0 && Nearest(Grid(k, unit), r, unit)
    ensures r == Grid(k, unit)
  {
    NearestStaysInside(Grid(k, unit), r, unit, k, k);
  }
}
