/** Facts about flooring division that the money arithmetic needs. */
module Arithmetic {

  function Min(a: int, b: int): int { if a < b then a else b }

  function Max(a: int, b: int): int { if a > b then a else b }

  function Abs(x: int): nat { if x < 0 then -x else x }

  lemma DivBounds(a: int, b: int)
    requires b > 0
    ensures b * (a / b) <= a < b * (a / b) + b
    ensures a >= 0 ==> a / b >= 0
  {
    var q := a / b;
    assert a == b * q + a % b;
    MulOrder(q, -1, b);
  }

  /** a / b is the only q with b * q <= a < b * q + b. */
  lemma DivUnique(a: int, b: int, q: int)
    requires b > 0
    requires b * q <= a < b * q + b
    ensures a / b == q
  {
    DivBounds(a, b);
    MulOrder(a / b + 1, q, b);
    MulOrder(q + 1, a / b, b);
  }

  lemma DivMonotone(a: int, a': int, b: int)
    requires b > 0 && a <= a'
    ensures a / b <= a' / b
  {
    DivBounds(a, b);
    DivBounds(a', b);
    MulOrder(a' / b + 1, a / b, b);
  }

  /** Common factors cancel under flooring division. */
  lemma DivScale(a: int, b: int, k: int)
    requires b > 0 && k > 0
    ensures k * b > 0 && (k * a) / (k * b) == a / b
  {
    var q := a / b;
    DivBounds(a, b);
    MulOrder(b * q, a, k);
    MulOrder(b * q + b, a, k);
    assert k * (b * q) == (k * b) * q;
    DivUnique(k * a, k * b, q);
  }

  /** Multiplying by a positive factor keeps and reflects order. */
  lemma MulOrder(a: int, b: int, k: int)
    ensures k > 0 ==> (k * a <= k * b <==> a <= b)
    ensures k * a == a * k && k * b == b * k
  {
    assert k * (b - a) == k * b - k * a;
  }

  /** a / b is the greatest multiplier of b that stays within a. */
  lemma DivIsGreatest(x: int, a: int, b: int)
    requires b > 0
    ensures x * b <= a <==> x <= a / b
  {
    DivBounds(a, b);
    MulOrder(x, a / b, b);
    MulOrder(a / b + 1, x, b);
  }

  /** Quotient and remainder are determined by their equation. */
  lemma DivModUnique(a: int, b: int, q: int, r: int)
    requires b > 0 && 0 <= r < b && a == b * q + r
    ensures a / b == q && a % b == r
  {
    DivUnique(a, b, q);
    assert a == b * (a / b) + a % b;
  }

  lemma ModBounds(a: int, b: int)
    requires b > 0
    ensures 0 <= a % b < b && a == b * (a / b) + a % b
  {
  }
}
