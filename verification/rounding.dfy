/** Decimal rounding as the engine performs it: `Math.round(v * 10^d) / 10^d`.
    JavaScript's `Math.round` rounds half-way cases towards positive infinity,
    which on exact reals is `Floor(x + 1/2)`. */
module Rounding {

  /** `Math.pow(10, d)` for a natural d, as a real. */
  function Pow10(d: nat): (p: real)
    ensures p >= 1.0
    ensures d > 0 ==> p >= 10.0
  {
    if d == 0 then 1.0 else 10.0 * Pow10(d - 1)
  }

  /** x counted in units of 10^-d. Kept as a function of its own so that the
      product is one term wherever it occurs. */
  function Shift(x: real, d: nat): real {
    x * Pow10(d)
  }

  /** x is an integer. */
  predicate IsWhole(x: real) {
    x.Floor as real == x
  }

  /** x is written with at most d decimals. */
  predicate HasDecimals(x: real, d: nat) {
    IsWhole(Shift(x, d))
  }

  /** The half-width of the rounding interval at d decimals. */
  function HalfUnit(d: nat): (h: real)
    ensures 0.0 < h <= 0.5
  {
    0.5 / Pow10(d)
  }

  /** `Math.round(v * 10^d)`. */
  function Scaled(v: real, d: nat): int {
    (Shift(v, d) + 0.5).Floor
  }

  /** `round(value, decimals)`: the value with d decimals nearest to v,
      half-way cases going up. */
  function Round(v: real, d: nat): (r: real)
    ensures HasDecimals(r, d)
    ensures v - HalfUnit(d) < r <= v + HalfUnit(d)
  {
    ShiftOfUnshift(Scaled(v, d), d);
    UnshiftBounds(v, d, Scaled(v, d));
    Scaled(v, d) as real / Pow10(d)
  }

  lemma ShiftOfUnshift(n: int, d: nat)
    ensures Shift(n as real / Pow10(d), d) == n as real
    ensures IsWhole(n as real)
  {
    assert (n as real).Floor == n;
  }

  /** Dividing the bounds n - 1/2 <= v * 10^d < n + 1/2 by 10^d. */
  lemma UnshiftBounds(v: real, d: nat, n: int)
    requires Shift(v, d) - 0.5 < n as real <= Shift(v, d) + 0.5
    ensures v - HalfUnit(d) < n as real / Pow10(d) <= v + HalfUnit(d)
  {
    var p := Pow10(d);
    assert (v * p - 0.5) / p == v - 0.5 / p;
    assert (v * p + 0.5) / p == v + 0.5 / p;
    DivideMonotone(n as real, v * p + 0.5, p);
    DivideStrict(v * p - 0.5, n as real, p);
  }

  /** Multiplying the bounds v - h < x <= v + h by 10^d. */
  lemma ShiftBounds(v: real, d: nat, x: real)
    requires v - HalfUnit(d) < x <= v + HalfUnit(d)
    ensures Shift(v, d) - 0.5 < Shift(x, d) <= Shift(v, d) + 0.5
  {
    var p := Pow10(d);
    assert (v - 0.5 / p) * p == v * p - 0.5;
    assert (v + 0.5 / p) * p == v * p + 0.5;
    ScaleStrict(v - 0.5 / p, x, p);
    ScaleMonotone(x, v + 0.5 / p, p);
  }

  lemma ShiftInjective(x: real, y: real, d: nat)
    requires Shift(x, d) == Shift(y, d)
    ensures x == y
  {
    var p := Pow10(d);
    assert x == x * p / p;
    assert y == y * p / p;
  }

  /** Two integers in the same half-open unit interval are equal. */
  lemma SameWhole(c: real, a: real, b: real)
    requires IsWhole(a) && IsWhole(b)
    requires c - 0.5 < a <= c + 0.5
    requires c - 0.5 < b <= c + 0.5
    ensures a == b
  {
    var k := a.Floor - b.Floor;
    assert k as real == a - b;
    assert -1.0 < a - b < 1.0;
    assert k == 0;
  }

  /** Round is the only value with d decimals in (v - h, v + h]: rounding
      picks the nearest d-decimal value, half-way cases going up. */
  lemma RoundIsNearest(v: real, d: nat, x: real)
    requires HasDecimals(x, d)
    requires v - HalfUnit(d) < x <= v + HalfUnit(d)
    ensures x == Round(v, d)
  {
    var r := Round(v, d);
    ShiftBounds(v, d, x);
    ShiftBounds(v, d, r);
    SameWhole(Shift(v, d), Shift(x, d), Shift(r, d));
    ShiftInjective(x, r, d);
  }

  /** A value that already has d decimals is left unchanged. */
  lemma RoundKeepsDecimals(x: real, d: nat)
    requires HasDecimals(x, d)
    ensures Round(x, d) == x
  {
    RoundIsNearest(x, d, x);
  }

  /** Rounding is monotone. */
  lemma RoundMonotone(a: real, b: real, d: nat)
    requires a <= b
    ensures Round(a, d) <= Round(b, d)
  {
    ScaleMonotone(a, b, Pow10(d));
    FloorMonotone(Shift(a, d) + 0.5, Shift(b, d) + 0.5);
    DivideMonotone(Scaled(a, d) as real, Scaled(b, d) as real, Pow10(d));
  }

  lemma ScaleMonotone(a: real, b: real, p: real)
    requires a <= b && p > 0.0
    ensures a * p <= b * p
  {
    assert b * p - a * p == (b - a) * p;
  }

  lemma ScaleStrict(a: real, b: real, p: real)
    requires a < b && p > 0.0
    ensures a * p < b * p
  {
    assert b * p - a * p == (b - a) * p;
  }

  lemma FloorMonotone(a: real, b: real)
    requires a <= b
    ensures a.Floor <= b.Floor
  {
  }

  lemma DivideMonotone(a: real, b: real, p: real)
    requires a <= b && p > 0.0
    ensures a / p <= b / p
  {
    assert b / p - a / p == (b - a) / p;
  }

  lemma DivideStrict(a: real, b: real, p: real)
    requires a < b && p > 0.0
    ensures a / p < b / p
  {
    assert b / p - a / p == (b - a) / p;
  }

  /** Rounding a non-negative value never gives a negative one. */
  lemma RoundNonNegative(v: real, d: nat)
    requires 0.0 <= v
    ensures 0.0 <= Round(v, d)
  {
    RoundMonotone(0.0, v, d);
    assert Shift(0.0, d) == 0.0;
    RoundKeepsDecimals(0.0, d);
  }

  /** At zero decimals the result is an integer. */
  lemma RoundToWhole(v: real)
    ensures IsWhole(Round(v, 0))
  {
    assert Pow10(0) == 1.0;
    assert Shift(Round(v, 0), 0) == Round(v, 0);
  }
}
