/**
 * Budget allocation: how a monthly budget is split into the auto-saved tenth,
 * the usable nine tenths and the safe daily limit.
 *
 * The source computes `Math.floor(val * 0.1)`, `Math.floor(val * 0.9)` and
 * `Math.floor(usable / 30)`. Here they are integer divisions; Dafny's `/` on
 * `int` rounds towards minus infinity for a positive divisor, as `Math.floor`
 * does, so negative budgets are split the same way. The lemma
 * `AllocationIsRealFloor` states that the integer forms are the exact-real floors.
 */
module Allocation {

  /** Budget the engine starts with, before the user types one. */
  const InitialBudget := 5000

  /** The auto-saved tenth of the budget, rounded down. */
  function Savings(budget: int): (s: int)
    ensures 10 * s <= budget < 10 * s + 10
  {
    budget / 10
  }

  /** The usable nine tenths of the budget, rounded down. */
  function Usable(budget: int): (u: int)
    ensures 10 * u <= 9 * budget < 10 * u + 10
    // the two buckets lose at most one unit of the budget to rounding
    ensures budget - 1 <= Savings(budget) + u <= budget
  {
    (9 * budget) / 10
  }

  /** The safe daily limit: a thirtieth of the usable amount, rounded down. */
  function DailyLimit(usable: int): (d: int)
    ensures 30 * d <= usable < 30 * d + 30
    ensures usable >= 0 ==> d >= 0
  {
    usable / 30
  }

  /**
   * Ceiling of the exact quotient a / b, for either sign of b
   * (`Math.ceil(a / b)` without floating-point rounding).
   */
  function CeilDiv(a: int, b: int): (r: int)
    requires b != 0
    ensures b > 0 ==> (r - 1) * b < a <= r * b
    ensures b < 0 ==> r * b <= a < (r - 1) * b
  {
    if b > 0 then
      var q := (-a) / b;
      assert b * q <= -a < b * q + b;
      -q
    else
      var q := a / (-b);
      assert (-b) * q <= a < (-b) * q - b;
      -q
  }

  /** Ceiling of a real number. */
  function CeilReal(x: real): (r: int)
    ensures r as real - 1.0 < x <= r as real
  {
    -((-x).Floor)
  }

  lemma FloorIs(x: real, k: int)
    requires k as real <= x < k as real + 1.0
    ensures x.Floor == k
  {
  }

  /** The integer split equals the floor of the exact real products `val * 0.1` and `val * 0.9`. */
  lemma AllocationIsRealFloor(budget: int)
    ensures (budget as real * 0.1).Floor == Savings(budget)
    ensures (budget as real * 0.9).Floor == Usable(budget)
    ensures ((Usable(budget) as real) / 30.0).Floor == DailyLimit(Usable(budget))
  {
    var s, u := Savings(budget), Usable(budget);
    assert 10.0 * (s as real) <= budget as real < 10.0 * (s as real) + 10.0;
    FloorIs(budget as real * 0.1, s);
    assert 10.0 * (u as real) <= 9.0 * (budget as real) < 10.0 * (u as real) + 10.0;
    FloorIs(budget as real * 0.9, u);
    var d := DailyLimit(u);
    assert 30.0 * (d as real) <= u as real < 30.0 * (d as real) + 30.0;
    FloorIs((u as real) / 30.0, d);
  }

  /** Dividing bounds on a product by a positive real divisor. */
  lemma QuotientBounds(a: real, b: real, lo: real, hi: real)
    requires b > 0.0 && lo * b < a <= hi * b
    ensures lo < a / b <= hi
  {
    assert a / b - lo == (a - lo * b) / b;
    assert hi - a / b == (hi * b - a) / b;
  }

  /** For a positive divisor, the integer ceiling agrees with the ceiling of the real quotient. */
  lemma CeilDivIsRealCeilPositive(a: int, b: int)
    requires b > 0
    ensures CeilReal(a as real / b as real) == CeilDiv(a, b)
  {
    var r := CeilDiv(a, b);
    assert ((r - 1) * b) as real == (r - 1) as real * b as real;
    assert (r * b) as real == r as real * b as real;
    QuotientBounds(a as real, b as real, (r - 1) as real, r as real);
    FloorIs(-(a as real / b as real), -r);
  }

  /** For any divisor other than zero, the integer ceiling agrees with the ceiling of the real quotient. */
  lemma CeilDivIsRealCeil(a: int, b: int)
    requires b != 0
    ensures CeilReal(a as real / b as real) == CeilDiv(a, b)
  {
    if b > 0 {
      CeilDivIsRealCeilPositive(a, b);
    } else {
      CeilDivIsRealCeilPositive(-a, -b);
      assert (-a) as real / (-b) as real == a as real / b as real;
    }
  }
}
