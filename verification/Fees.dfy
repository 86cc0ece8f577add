/** Per-share fees (pmarb/fees.py). Prices and fees are in ticks of 1e-4 dollars; a price may fall between ticks. */
module Fees {
  import opened Common

  const ONE: real := 10000.0

  const KALSHI_COEFFICIENT: real := 0.07
  const POLY_TAKER_THETA: real := 0.05
  const POLY_MAKER_THETA: real := -0.0125

  /** round(x) to a whole tick, ties to even. */
  function Round(x: real): (r: int)
    ensures -0.5 <= x - r as real <= 0.5
    ensures x - r as real == 0.5 || x - r as real == -0.5 ==> r % 2 == 0
  {
    var f := x.Floor;
    var d := x - f as real;
    if d < 0.5 || (d == 0.5 && f % 2 == 0) then f else f + 1
  }

  function Hump(price: real): real {
    price * (ONE - price)
  }

  /** coefficient * price * (1 - price), not yet rounded. */
  function Curve(coefficient: real, price: real): real {
    Scaled(coefficient, Hump(price))
  }

  function Scaled(coefficient: real, x: real): real {
    coefficient * x / ONE
  }

  function QuadraticFee(coefficient: real, price: real): Option<int> {
    if 0.0 <= price <= ONE then Some(Round(Curve(coefficient, price))) else None
  }

  function KalshiFee(price: real): Option<int> {
    QuadraticFee(KALSHI_COEFFICIENT, price)
  }

  function PolyTakerFee(price: real): Option<int> {
    QuadraticFee(POLY_TAKER_THETA, price)
  }

  function PolyMakerRebate(price: real): Option<int> {
    QuadraticFee(POLY_MAKER_THETA, price)
  }

  lemma Product(x: real, y: real)
    requires 0.0 <= x && 0.0 <= y
    ensures 0.0 <= x * y
  {
  }

  lemma HumpInRange(price: real)
    requires 0.0 <= price <= ONE
    ensures 0.0 <= Hump(price) <= Hump(5000.0)
  {
    var d, rest := price - 5000.0, ONE - price;
    Product(price, rest);
    assert d * d >= 0.0;
    assert price * rest == 25000000.0 - d * d;
    assert Hump(5000.0) == 25000000.0;
  }

  lemma ScaledOrder(c: real, x: real, y: real)
    requires 0.0 <= c && x <= y
    ensures c * x <= c * y
  {
  }

  lemma DivideByOne(x: real, y: real)
    requires x <= y
    ensures x / ONE <= y / ONE
  {
  }

  lemma RoundKeepsOrder(x: real, y: real)
    requires x <= y
    ensures Round(x) <= Round(y)
  {
    assert Round(x) > Round(y) ==> x == y;
  }

  lemma ScaledRange(c: real, x: real, y: real)
    requires 0.0 <= c && 0.0 <= x <= y
    ensures 0.0 <= Scaled(c, x) <= Scaled(c, y)
  {
    Product(c, x);
    ScaledOrder(c, x, y);
    DivideByOne(0.0, c * x);
    DivideByOne(c * x, c * y);
  }

  lemma RoundedRange(c: real, x: real, y: real)
    requires 0.0 <= c && 0.0 <= x <= y
    ensures 0 <= Round(Scaled(c, x)) <= Round(Scaled(c, y))
  {
    ScaledRange(c, x, y);
    RoundKeepsOrder(0.0, Scaled(c, x));
    RoundKeepsOrder(Scaled(c, x), Scaled(c, y));
    assert Round(0.0) == 0;
  }

  lemma FeeIsRounded(c: real, price: real, x: real)
    requires 0.0 <= price <= ONE && x == Hump(price)
    ensures QuadraticFee(c, price) == Some(Round(Scaled(c, x)))
  {
  }

  /** A taker fee is never negative and peaks at the even price. */
  lemma TakerFeeRange(c: real, price: real)
    requires 0.0 <= c && 0.0 <= price <= ONE
    ensures 0 <= QuadraticFee(c, price).value <= QuadraticFee(c, 5000.0).value
  {
    var x, top := Hump(price), Hump(5000.0);
    HumpInRange(price);
    FeeIsRounded(c, price, x);
    FeeIsRounded(c, 5000.0, top);
    RoundedRange(c, x, top);
  }

  /** The documented peaks, 1.75 and 1.25 cents at the even price. */
  lemma DocumentedPeaks()
    ensures KalshiFee(5000.0) == Some(175) && PolyTakerFee(5000.0) == Some(125)
  {
    assert Hump(5000.0) == 25000000.0;
    assert Scaled(KALSHI_COEFFICIENT, 25000000.0) == 175.0 && Scaled(POLY_TAKER_THETA, 25000000.0) == 125.0;
  }

  /** A maker rebate is a credit at every price. */
  lemma MakerRebateIsCredit(price: real)
    requires 0.0 <= price <= ONE
    ensures PolyMakerRebate(price).value <= 0
  {
    var x := Hump(price);
    HumpInRange(price);
    FeeIsRounded(POLY_MAKER_THETA, price, x);
    assert Scaled(POLY_MAKER_THETA, x) <= 0.0;
    RoundKeepsOrder(Scaled(POLY_MAKER_THETA, x), 0.0);
    assert Round(0.0) == 0;
  }

  lemma HumpIsSymmetric(price: real)
    ensures Hump(price) == Hump(ONE - price)
  {
    assert price * (ONE - price) == (ONE - price) * (ONE - (ONE - price));
  }

  /** The two sides of a contract pay the same fee. */
  lemma FeeIsSymmetric(c: real, price: real)
    ensures QuadraticFee(c, price) == QuadraticFee(c, ONE - price)
  {
    HumpIsSymmetric(price);
    assert Curve(c, price) == Curve(c, ONE - price);
  }

  lemma LessThanWhole(c: real, g: real)
    requires 0.0 <= c < 1.0 && g > 0.0
    ensures c * g < g
  {
    assert (1.0 - c) * g > 0.0;
  }

  /** The product u - v of two humps, scaled, against the gap. */
  lemma ScaledDrop(c: real, u: real, v: real, gap: real)
    requires 0.0 <= c < 1.0 && 0.0 < gap && u - v <= gap * ONE
    ensures c * u / ONE - c * v / ONE < gap
  {
    ScaledOrder(c, u - v, gap * ONE);
    assert c * (u - v) == c * u - c * v;
    assert c * (gap * ONE) == (c * gap) * ONE;
    DivideByOne(c * u - c * v, (c * gap) * ONE);
    LessThanWhole(c, gap);
  }

  /** The curve falls more slowly than the price rises. */
  lemma CurveSlope(c: real, p: real, q: real, gap: real)
    requires 0.0 <= c < 1.0 && 0.0 <= p < q <= ONE && gap == q - p
    ensures Curve(c, p) - Curve(c, q) < gap
  {
    var u, v := p * (ONE - p), q * (ONE - q);
    var lean := p + q - ONE;
    assert u - v == gap * lean;
    ScaledOrder(gap, lean, ONE);
    ScaledDrop(c, u, v, gap);
  }

  lemma RoundedDrop(x: real, y: real, g: int)
    requires x - y < g as real
    ensures Round(x) - Round(y) <= g
  {
    var fx, fy := Round(x), Round(y);
    assert (fx - fy) as real < (g + 1) as real;
  }

  lemma RoundedSteps(x: real, y: real, p: int, q: int)
    requires x - y < (q - p) as real
    ensures p + Round(x) <= q + Round(y)
  {
    RoundedDrop(x, y, q - p);
  }

  /** What a share costs, fee included, never falls as its tick price rises: any coefficient below one. */
  lemma CostWithFeeRises(c: real, p: int, q: int)
    requires 0.0 <= c < 1.0 && 0 <= p <= q <= 10000
    ensures p + QuadraticFee(c, p as real).value <= q + QuadraticFee(c, q as real).value
  {
    if p < q {
      CurveSlope(c, p as real, q as real, (q - p) as real);
      RoundedSteps(Curve(c, p as real), Curve(c, q as real), p, q);
    }
  }
}
