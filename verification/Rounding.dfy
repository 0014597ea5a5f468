/** Four-decimal rounding over exact reals, the way Python's `round(x, 4)` is meant:
    nearest multiple of 1/10000, ties to the even multiple. */
module Rounding {

  const HALF_UNIT := 0.00005

  function NearestEven(x: real): (n: int)
  {
    var f := x.Floor;
    var rest := x - f as real;
    if rest < 0.5 || (rest == 0.5 && f % 2 == 0) then f else f + 1
  }

  function Round4(x: real): real {
    NearestEven(x * 10000.0) as real / 10000.0
  }

  /** Values that are already four-decimal numbers. */
  predicate OnGrid(x: real) {
    (x * 10000.0).Floor as real == x * 10000.0
  }

  function Clamp(low: real, high: real, x: real): (r: real)
    requires low <= high
    ensures low <= r <= high
  {
    if x < low then low else if x > high then high else x
  }

  function Abs(x: real): real {
    if x < 0.0 then -x else x
  }

  lemma {:induction false} MulNonneg(x: real, y: real)
    requires x >= 0.0 && y >= 0.0
    ensures x * y >= 0.0
  {
  }

  lemma {:induction false} ProductMonotone(x: real, x': real, y: real, y': real)
    requires 0.0 <= x <= x' && 0.0 <= y <= y'
    ensures 0.0 <= x * y <= x' * y'
  {
    MulNonneg(x' - x, y);
    MulNonneg(x', y' - y);
    MulNonneg(x, y);
  }

  lemma {:induction false} NearestEvenMonotone(x: real, y: real)
    requires x <= y
    ensures NearestEven(x) <= NearestEven(y)
  {
    if x.Floor < y.Floor {
    } else {
      assert x.Floor == y.Floor;
    }
  }

  /** Rounding moves a number by at most half a unit, keeps the order, lands on the grid
      and leaves grid numbers alone. */
  lemma {:induction false} Round4Properties(x: real, y: real)
    ensures Abs(Round4(x) - x) <= HALF_UNIT
    ensures x <= y ==> Round4(x) <= Round4(y)
    ensures OnGrid(Round4(x))
    ensures OnGrid(x) ==> Round4(x) == x
  {
    if x <= y {
      NearestEvenMonotone(x * 10000.0, y * 10000.0);
    }
    assert Round4(x) * 10000.0 == NearestEven(x * 10000.0) as real;
  }

  /** Rounding cannot leave an interval whose end points are four-decimal numbers. */
  lemma {:induction false} Round4StaysWithin(low: real, high: real, x: real)
    requires OnGrid(low) && OnGrid(high) && low <= x <= high
    ensures low <= Round4(x) <= high
  {
    Round4Properties(low, x);
    Round4Properties(x, high);
    Round4Properties(high, high);
  }
}
