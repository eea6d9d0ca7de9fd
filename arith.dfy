/** Small facts of integer arithmetic that the solver does not find on its own
    (products of variables, quotients and remainders). */
module Arith {

  function Abs(x: int): nat { if x < 0 then -x else x }

  /** Two-digit representations in base `base` are unique. */
  lemma DigitsUnique(a1: nat, b1: nat, a2: nat, b2: nat, base: nat)
    requires b1 < base && b2 < base
    requires a1 * base + b1 == a2 * base + b2
    ensures a1 == a2 && b1 == b2
  {
    DivModOf(a1, b1, base);
    DivModOf(a2, b2, base);
  }

  /** Quotient and remainder of a * base + b, for a digit b. */
  lemma DivModOf(a: nat, b: nat, base: nat)
    requires b < base
    ensures (a * base + b) / base == a && (a * base + b) % base == b
  {
    var x := a * base + b;
    DivMod(x, base);
    var q := x / base;
    if q > a {
      MulLe(a + 1, q, base);
      MulSucc(a, base);
    } else if q < a {
      MulLe(q + 1, a, base);
      MulSucc(q, base);
    }
  }

  lemma DivMod(x: nat, d: nat)
    requires d > 0
    ensures x == (x / d) * d + x % d && x % d < d
  {
  }

  lemma MulSucc(a: nat, b: nat)
    ensures (a + 1) * b == a * b + b
  {
  }

  lemma MulAdd(t: nat, x: nat, d: nat)
    ensures t * (x + d) == t * x + t * d
  {
  }

  lemma MulLe(a: nat, b: nat, c: nat)
    requires a <= b
    ensures a * c <= b * c
  {
  }

  lemma MulMono(a: nat, b: nat, c: nat, d: nat)
    requires a <= b && c <= d
    ensures a * c <= b * d
  {
  }

  /** x / d < q whenever x < q * d. */
  lemma DivBelow(x: nat, d: nat, q: nat)
    requires d > 0 && x < q * d
    ensures x / d < q
  {
    DivMod(x, d);
    if x / d >= q {
      MulLe(q, x / d, d);
    }
  }
  lemma DivNonNeg(x: int, y: int)
    requires x >= 0 && y > 0
    ensures x / y >= 0
  {
  }

  lemma MulAbs(x: int, y: int)
    ensures Abs(x * y) == Abs(x) * Abs(y)
  {
    if x < 0 && y < 0 {
      assert x * y == (-x) * (-y);
    } else if x < 0 {
      assert x * y == -((-x) * y);
    } else if y < 0 {
      assert x * y == -(x * (-y));
    }
  }

  /** A multiple of g smaller in magnitude than g is zero. */
  lemma SmallMultiple(c: int, g: int)
    requires g != 0 && Abs(c * g) < Abs(g)
    ensures c == 0
  {
    MulAbs(c, g);
    if c != 0 {
      MulLe(1, Abs(c), Abs(g));
    }
  }

  /** Dividing a multiple of g by g is exact. */
  lemma DivOfMultiple(x: int, g: int)
    requires g != 0
    ensures (x * g) / g == x && (x * g) % g == 0
  {
    var y := x * g;
    var c := y / g - x;
    assert y == (y / g) * g + y % g;
    assert c * g == (y / g) * g - x * g;
    assert c * g == -(y % g);
    SmallMultiple(c, g);
  }

  /** A byte offset t * x is a whole number of t-byte elements. */
  lemma WholeElements(t: nat, x: nat)
    ensures t > 0 ==> (t * x) % t == 0
  {
    if t > 0 {
      DivOfMultiple(x, t);
    }
  }
}
