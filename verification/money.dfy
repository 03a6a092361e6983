/** Monetary values and JavaScript's `toFixed` rounding.
    Amounts are exact reals. `x.toFixed(p)` followed by `parseFloat` (or by an
    arithmetic coercion) is modelled by `Round(x, p)`: the decimal with `p`
    fractional digits nearest to `x`, ties going away from zero, which is how
    `Number.prototype.toFixed` picks its digits for the magnitude of `x` and
    then prefixes the sign. Binary floating point is not modelled. */
module Money {

  /** 10^n */
  function Pow10(n: nat): (r: nat)
    ensures r >= 1
  {
    if n == 0 then 1 else 10 * Pow10(n - 1)
  }

  /** The number of grid steps per unit when keeping `places` decimals. */
  function Scale(places: nat): (r: real)
    ensures r > 0.0
  {
    Pow10(places) as real
  }

  /** The point `k` grid steps of `10^-places` away from zero. */
  function GridValue(k: int, places: nat): real
  {
    k as real / Scale(places)
  }

  /** `x` has at most `places` fractional decimal digits. */
  ghost predicate OnGrid(x: real, places: nat)
  {
    exists k: int :: x == GridValue(k, places)
  }

  lemma ScaledError(x: real, s: real, n: real, q: real)
    requires s > 0.0 && q * s == n && n <= x * s + 0.5 < n + 1.0
    ensures -0.5 < (q - x) * s <= 0.5
  {
    assert (q - x) * s == q * s - x * s;
  }

  lemma ScaleNonNegative(x: real, s: real)
    requires x >= 0.0 && s > 0.0
    ensures x * s >= 0.0
  {
  }

  lemma DivideThenScale(n: real, s: real)
    requires s > 0.0
    ensures (n / s) * s == n
  {
  }

  lemma DivideKeepsSign(n: real, s: real)
    requires s > 0.0
    ensures n >= 0.0 ==> n / s >= 0.0
    ensures n < 0.0 ==> n / s < 0.0
    ensures (-n) / s == -(n / s)
  {
  }

  /** A grid point has the sign of its step count, and mirrors under negation. */
  lemma GridValueSign(k: int, places: nat)
    ensures k >= 0 ==> GridValue(k, places) >= 0.0
    ensures k < 0 ==> GridValue(k, places) < 0.0
    ensures GridValue(-k, places) == -GridValue(k, places)
  {
    DivideKeepsSign(k as real, Scale(places));
  }

  /** The number of grid steps `toFixed` keeps for a non-negative value. */
  function Units(x: real, places: nat): (n: int)
    requires x >= 0.0
    ensures n >= 0
  {
    ScaleNonNegative(x, Scale(places));
    (x * Scale(places) + 0.5).Floor
  }

  /** Rounding of a non-negative value: of two equally near grid points, the larger. */
  function RoundMagnitude(x: real, places: nat): (r: real)
    requires x >= 0.0
    ensures r >= 0.0
    ensures -0.5 < (r - x) * Scale(places) <= 0.5
    ensures OnGrid(r, places)
  {
    var s := Scale(places);
    var n := Units(x, places);
    DivideThenScale(n as real, s);
    ScaledError(x, s, n as real, n as real / s);
    GridValueSign(n, places);
    GridValue(n, places)
  }

  /** `parseFloat(x.toFixed(places))`: the error is at most half a grid step. */
  function Round(x: real, places: nat): (r: real)
    ensures -0.5 <= (r - x) * Scale(places) <= 0.5
    ensures x >= 0.0 ==> r >= 0.0
    ensures x <= 0.0 ==> r <= 0.0
    ensures OnGrid(r, places)
  {
    if x < 0.0 then
      var m := RoundMagnitude(-x, places);
      NegateOnGrid(m, places);
      assert (-m - x) * Scale(places) == -((m - (-x)) * Scale(places));
      -m
    else
      RoundMagnitude(x, places)
  }

  lemma NegateOnGrid(m: real, places: nat)
    requires OnGrid(m, places)
    ensures OnGrid(-m, places)
  {
    var k :| m == GridValue(k, places);
    GridValueSign(k, places);
    assert -m == GridValue(-k, places);
  }

  /** A grid point `k / 10^places` with `k >= 0` keeps exactly `k` steps. */
  lemma UnitsOfGridPoint(k: nat, places: nat)
    ensures GridValue(k, places) >= 0.0 && Units(GridValue(k, places), places) == k
  {
    var s := Scale(places);
    DivideThenScale(k as real, s);
    GridValueSign(k, places);
    assert GridValue(k, places) * s == k as real;
    assert (k as real + 0.5).Floor == k;
  }

  /** A value already on the grid is left exactly as it is. */
  lemma RoundOnGrid(x: real, places: nat)
    requires OnGrid(x, places)
    ensures Round(x, places) == x
  {
    var k :| x == GridValue(k, places);
    GridValueSign(k, places);
    if k < 0 {
      UnitsOfGridPoint(-k, places);
      assert RoundMagnitude(-x, places) == -x;
    } else {
      UnitsOfGridPoint(k, places);
      assert RoundMagnitude(x, places) == x;
    }
  }

  /** Rounding twice to the same precision is rounding once. */
  lemma RoundIdempotent(x: real, places: nat)
    ensures Round(Round(x, places), places) == Round(x, places)
  {
    RoundOnGrid(Round(x, places), places);
  }

  /** Zero survives rounding, so a discount that cancels the amount gives exactly 0. */
  lemma RoundZero(places: nat)
    ensures Round(0.0, places) == 0.0
  {
    assert GridValue(0, places) == 0.0;
    RoundOnGrid(0.0, places);
  }

  /** `toFixed(1)` moves a value by at most five hundredths. */
  lemma RoundTenthsError(x: real)
    ensures -0.05 <= Round(x, 1) - x <= 0.05
    ensures OnGrid(Round(x, 1), 1)
  {
    assert Scale(1) == 10.0;
  }

  /** `toFixed(2)` moves a value by at most five thousandths. */
  lemma RoundCentsError(x: real)
    ensures -0.005 <= Round(x, 2) - x <= 0.005
    ensures OnGrid(Round(x, 2), 2)
  {
    assert Scale(2) == 100.0;
  }
}
