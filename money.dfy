/** Amounts of money as exact integers.

    Both ledgers store cash, prices and position values in DECIMAL(18, 6)
    columns, so every stored amount is a whole number of micro-units
    (10^-6 of a dollar). The model keeps every amount as an `int` counting
    micro-units and writes the source's rounding and division out explicitly.
 */
module Money {

  /** Micro-units per whole unit: 10^6, for the six fractional digits
      (`SCALE = 6`) every stored amount keeps. */
  const MICRO: int := 1_000_000

  function Abs(x: int): nat {
    if x < 0 then -x else x
  }

  /** The source's `trunc` helper, which despite its name ROUNDS to six
      decimals (Python's `round(x, 6)`): the amount n/d micro-units rounded to
      the nearest whole micro-unit, ties to the even neighbour. */
  function Trunc(n: int, d: int): (r: int)
    requires d > 0
    ensures -d <= 2 * (n - r * d) <= d
    ensures 2 * (n - r * d) == d || 2 * (n - r * d) == -d ==> r % 2 == 0
    ensures n >= 0 ==> r >= 0
  {
    var q := n / d;
    var rem := n % d;
    assert n == q * d + rem;
    if 2 * rem < d then q
    else if 2 * rem > d then q + 1
    else if q % 2 == 0 then q
    else q + 1
  }

  /** Rounding picks the one integer strictly within half a step of n/d. */
  lemma TruncUnique(n: int, d: int, k: int)
    requires d > 0
    requires -d < 2 * (n - k * d) < d
    ensures Trunc(n, d) == k
  {
    var r := Trunc(n, d);
    var e := r - k;
    assert r * d - k * d == e * d;
    if e >= 1 {
      MulAtLeast(e, d);
    } else if e <= -1 {
      MulAtLeast(-e, d);
    }
  }

  lemma MulAtLeast(e: int, d: int)
    requires e >= 1 && d > 0
    ensures e * d >= d
  {
    assert e * d == (e - 1) * d + d;
  }

  lemma MulMonotone(a: int, b: int, c: int)
    requires a <= b && c >= 0
    ensures a * c <= b * c
  {
    assert b * c - a * c == (b - a) * c;
  }

  /** An amount already on the micro-unit grid is a fixed point of rounding,
      which is why reading back a stored amount changes nothing. */
  lemma TruncGrid(k: int, d: int)
    requires d > 0
    ensures Trunc(k * d, d) == k
  {
    TruncUnique(k * d, d, k);
  }

  lemma DivBounds(x: int, b: int)
    requires x >= 0 && b > 0
    ensures 0 <= x / b
    ensures (x / b) * b <= x < (x / b) * b + b
  {
    assert x == (x / b) * b + x % b;
  }

  /** Python's `int(a / b)` for b > 0: the quotient truncated toward zero. */
  function TruncDiv(a: int, b: int): (r: int)
    requires b > 0
    ensures a >= 0 ==> 0 <= r && r * b <= a < r * b + b
    ensures a < 0 ==> r <= 0 && r * b - b < a <= r * b
  {
    if a >= 0 then
      DivBounds(a, b);
      a / b
    else
      DivBounds(-a, b);
      assert (-((-a) / b)) * b == -(((-a) / b) * b);
      -((-a) / b)
  }

  /** When `shares` at `price` cost more than `cash` (cash >= 0), the limit
      reported to the buyer is the largest share count the cash does pay for,
      and it is below the count that was asked for. */
  lemma AffordableLimit(cash: int, price: int, shares: int)
    requires cash >= 0 && price > 0
    requires shares * price > cash
    ensures var limit := TruncDiv(cash, price);
      0 <= limit < shares && limit * price <= cash < limit * price + price
  {
    var limit := TruncDiv(cash, price);
    if shares <= limit {
      MulMonotone(shares, limit, price);
    }
  }
}
