/**
 * The `Math` functions and the `%` operator of JavaScript, on exact reals.
 * Floating-point rounding is not modelled: every number is a Dafny `real`.
 */
module JsMath {

  /** `Math.floor(x)`: the greatest integer not above `x`. */
  function Floor(x: real): (r: int)
    ensures r as real <= x < r as real + 1.0
  {
    x.Floor
  }

  /** `Math.ceil(x)`: the least integer not below `x`. */
  function Ceil(x: real): (r: int)
    ensures x <= r as real < x + 1.0
  {
    -((-x).Floor)
  }

  /** `Math.round(x)`: the nearest integer, halves rounded up (towards +infinity). */
  function Round(x: real): (r: int)
    ensures r as real - 0.5 <= x < r as real + 0.5
  {
    (x + 0.5).Floor
  }

  /** Truncation towards zero, as JavaScript's `%` uses. */
  function Trunc(x: real): (r: int)
    ensures x >= 0.0 ==> r as real <= x < r as real + 1.0
    ensures x < 0.0 ==> r as real - 1.0 < x <= r as real
  {
    if x >= 0.0 then x.Floor else -((-x).Floor)
  }

  /** `a % b` for a positive divisor: the remainder carries the sign of the dividend. */
  function Rem(a: real, b: real): (r: real)
    requires b > 0.0
    ensures a >= 0.0 ==> 0.0 <= r < b
    ensures a < 0.0 ==> -b < r <= 0.0
    ensures ((a - r) / b).Floor as real == (a - r) / b
  {
    RemainderFacts(a, b);
    a - (Trunc(a / b) as real) * b
  }

  /** A draw from [0, 1) scaled by a positive length floors to an index of it. */
  lemma FloorIndex(draw: real, n: int)
    requires n > 0 && 0.0 <= draw < 1.0
    ensures 0 <= Floor(draw * n as real) < n
  {
    var x := draw * n as real;
    assert 0.0 <= x;
    assert x < n as real by { assert (1.0 - draw) * n as real > 0.0; }
  }

  lemma RemainderFacts(a: real, b: real)
    requires b > 0.0
    ensures var r := a - (Trunc(a / b) as real) * b;
      (a >= 0.0 ==> 0.0 <= r < b) && (a < 0.0 ==> -b < r <= 0.0) && (a - r) / b == Trunc(a / b) as real
  {
    var q := Trunc(a / b) as real;
    SignOfQuotient(a, b);
    if a >= 0.0 {
      NonNegativeRemainder(a, b, q);
    } else {
      NegativeRemainder(a, b, q);
    }
    CancelFactor(q, b);
    assert a - (a - q * b) == q * b;
  }

  lemma SignOfQuotient(a: real, b: real)
    requires b > 0.0
    ensures a >= 0.0 <==> a / b >= 0.0
  {
    if a / b < 0.0 {
      assert (-(a / b)) * b > 0.0;
    }
  }

  lemma NonNegativeRemainder(a: real, b: real, q: real)
    requires b > 0.0
    requires q <= a / b < q + 1.0
    ensures 0.0 <= a - q * b < b
  {
    var y := a / b - q;
    assert 0.0 <= y < 1.0;
    assert y * b < 1.0 * b;
    assert 0.0 <= y * b;
    assert a - q * b == y * b;
  }

  lemma NegativeRemainder(a: real, b: real, q: real)
    requires b > 0.0
    requires q - 1.0 < a / b <= q
    ensures -b < a - q * b <= 0.0
  {
    var y := q - a / b;
    assert 0.0 <= y < 1.0;
    assert y * b < 1.0 * b;
    assert 0.0 <= y * b;
    assert a - q * b == -(y * b);
  }

  lemma CancelFactor(q: real, b: real)
    requires b > 0.0
    ensures (q * b) / b == q
  {
  }

  /** Dividing by a positive number and comparing is comparing the product. */
  lemma QuotientCompare(a: real, b: real, c: real)
    requires b > 0.0
    ensures a / b * b == a
    ensures a / b > c <==> a > c * b
    ensures a / b <= c <==> a <= c * b
  {
    var q := a / b;
    assert q * b == a;
    if q > c {
      assert q * b > c * b;
    } else {
      assert q * b <= c * b;
    }
  }

  function Min(a: real, b: real): (r: real)
    ensures r <= a && r <= b && (r == a || r == b)
  {
    if a <= b then a else b
  }

  function Max(a: real, b: real): (r: real)
    ensures r >= a && r >= b && (r == a || r == b)
  {
    if a >= b then a else b
  }

  /** `Math.max(lo, Math.min(hi, x))`: `x` pushed into `[lo, hi]`, unchanged when already inside. */
  function Clamp(lo: real, hi: real, x: real): (r: real)
    requires lo <= hi
    ensures lo <= r <= hi
    ensures lo <= x <= hi ==> r == x
    ensures x < lo ==> r == lo
    ensures x > hi ==> r == hi
  {
    Max(lo, Min(hi, x))
  }
}
