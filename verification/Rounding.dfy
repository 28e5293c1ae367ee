/** Python's round(): to the nearest integer, a half to the even one. */
module Rounding {

  function Round(x: real): (n: int)
    ensures -0.5 <= n as real - x <= 0.5
  {
    var f := x.Floor;
    if x - f as real < 0.5 then f
    else if x - f as real > 0.5 then f + 1
    else if f % 2 == 0 then f else f + 1
  }

  lemma {:induction false} RoundOfInt(n: int)
    ensures Round(n as real) == n
  {
  }

  lemma {:induction false} RoundMonotone(x: real, y: real)
    requires x <= y
    ensures Round(x) <= Round(y)
  {
    if x.Floor < y.Floor {
      assert x.Floor + 1 <= y.Floor;
    }
  }

  /** A half goes to the even neighbour. */
  lemma {:induction false} HalfToEven(n: int)
    ensures Round(n as real + 0.5) == if n % 2 == 0 then n else n + 1
  {
    assert (n as real + 0.5).Floor == n;
  }

  /** The nearest integer, and of two equally near the even one. */
  predicate IsNearest(n: int, x: real) {
    && -0.5 <= n as real - x <= 0.5
    && (n as real - x == -0.5 || n as real - x == 0.5 ==> n % 2 == 0)
  }

  lemma {:induction false} RoundIsNearest(x: real)
    ensures IsNearest(Round(x), x)
    ensures forall n :: IsNearest(n, x) ==> n == Round(x)
  {
  }

  // ---------------------------------------------------------------- products and quotients

  lemma {:induction false} ScaleKeepsOrder(x: real, y: real, n: real)
    requires n > 0.0
    ensures x * n <= y * n <==> x <= y
  {
    assert y * n - x * n == (y - x) * n;
  }

  /** A quotient against a bound, without the division. */
  lemma {:induction false} QuotientAgainst(a: real, b: real, x: real)
    requires b > 0.0
    ensures a / b <= x <==> a <= x * b
    ensures a / b >= x <==> a >= x * b
  {
    assert a / b * b == a;
    ScaleKeepsOrder(a / b, x, b);
    ScaleKeepsOrder(x, a / b, b);
  }
}
