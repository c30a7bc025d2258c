/** Exact rationals as reals, rounded the two ways the source rounds Decimals. */
module Rounding {

  const SCALE: real := 100_000_000.0

  /** To an integral value, toward positive infinity. */
  function Ceil(x: real): (n: int)
    ensures n as real - 1.0 < x <= n as real
  {
    -((-x).Floor)
  }

  /** To eight decimal places, halves away from zero; arguments are never negative. */
  function HalfUp(x: real): real {
    (x * SCALE + 0.5).Floor as real / SCALE
  }

  /** At most eight decimal places. */
  predicate EightPlaces(x: real) {
    (x * SCALE).Floor as real == x * SCALE
  }

  lemma FloorIsMonotone(x: real, y: real)
    requires x <= y
    ensures x.Floor <= y.Floor
  {
  }

  lemma {:induction false} HalfUpIsMonotone(x: real, y: real)
    requires x <= y
    ensures HalfUp(x) <= HalfUp(y)
  {
    FloorIsMonotone(x * SCALE + 0.5, y * SCALE + 0.5);
    assert (x * SCALE + 0.5).Floor as real <= (y * SCALE + 0.5).Floor as real;
  }

  lemma HalfUpHasEightPlaces(x: real)
    ensures EightPlaces(HalfUp(x))
  {
    var n := (x * SCALE + 0.5).Floor;
    assert n as real / SCALE * SCALE == n as real;
    assert (n as real).Floor == n;
  }

  lemma HalfUpOfUnit()
    ensures HalfUp(0.0) == 0.0 && HalfUp(1.0) == 1.0
  {
    assert (1.0 * SCALE + 0.5).Floor == 100_000_000;
  }

  lemma CeilIsMonotone(x: real, y: real)
    requires x <= y
    ensures Ceil(x) <= Ceil(y)
  {
  }

  /** The least integer not below x. */
  lemma CeilIsLeast(x: real, n: int)
    ensures Ceil(x) <= n <==> x <= n as real
  {
  }
}
