/** Small facts of real arithmetic that the rate and pricing proofs lean on. */
module RealArith {

  lemma CancelFactor(x: real, y: real, c: real)
    requires c != 0.0 && x * c == y * c
    ensures x == y
  {
    assert (x - y) * c == 0.0;
  }

  lemma ScaledNonNegative(w: real, span: real, product: real)
    requires span > 0.0 && product >= 0.0 && w * span == product
    ensures w >= 0.0
  {
  }

  lemma FractionOfNonNegative(w: real, x: real)
    requires 0.0 <= w <= 1.0 && x >= 0.0
    ensures 0.0 <= w * x <= x
  {
    assert x - w * x == (1.0 - w) * x;
  }

  lemma BlendAsShift(ws: real, wl: real, a: real, b: real)
    requires ws + wl == 1.0
    ensures ws * a + wl * b == a + wl * (b - a)
  {
    assert ws * a == (1.0 - wl) * a;
  }

  /** A blend with weights in [0, 1] summing to one lies between the blended values. */
  lemma BlendBetween(ws: real, wl: real, a: real, b: real)
    requires 0.0 <= ws <= 1.0 && 0.0 <= wl <= 1.0 && ws + wl == 1.0
    ensures (if a <= b then a else b) <= ws * a + wl * b <= (if a <= b then b else a)
  {
    if a <= b {
      FractionOfNonNegative(wl, b - a);
      BlendAsShift(ws, wl, a, b);
    } else {
      FractionOfNonNegative(ws, a - b);
      BlendAsShift(wl, ws, b, a);
    }
  }

  /** Dividing and multiplying back by a non-zero value is the identity. */
  lemma DivTimes(x: real, c: real)
    requires c != 0.0
    ensures (x / c) * c == x
  {
  }

  /** Two quotients brought over a common denominator. */
  lemma QuotientDifference(x: real, y: real, a: real, b: real)
    requires a != 0.0 && b != 0.0
    ensures x / b - y / a == (x * a - y * b) / a / b
  {
    var lhs, rhs := x / b - y / a, (x * a - y * b) / a / b;
    DivTimes(x, b);
    DivTimes(y, a);
    assert lhs * a * b == (x / b) * b * a - (y / a) * a * b;
    DivTimes(x * a - y * b, a);
    DivTimes((x * a - y * b) / a, b);
    assert rhs * a * b == x * a - y * b;
    assert lhs * (a * b) == rhs * (a * b);
    CancelFactor(lhs, rhs, a * b);
  }

  /** A factor of the numerator can be taken out of a double quotient. */
  lemma QuotientFactor(p: real, q: real, a: real, b: real)
    requires a != 0.0 && b != 0.0
    ensures (p * q) / a / b == (p / a / b) * q
  {
  }

  /** The numerator of the difference of the ISDA-style quotients
      `x / b = yf (g - k) / (1 + yf g)` and `y / a = yf (f - k) / (1 + yf f)`,
      cross-multiplied, is `s q` with `s = yf (1 + yf k)` and `q = g - f`. */
  lemma CrossNumerator(yf: real, k: real, f: real, g: real,
                       x: real, y: real, a: real, b: real, s: real, q: real)
    requires x == yf * (g - k) && y == yf * (f - k) && a == 1.0 + yf * f && b == 1.0 + yf * g
    requires s == yf * (1.0 + yf * k) && q == g - f
    ensures x * a - y * b == s * q
  {
    var u, v := g - k, f - k;
    assert u * f - v * g == k * (g - f);
    calc {
      x * a - y * b;
      == yf * u * (1.0 + yf * f) - yf * v * (1.0 + yf * g);
      == (yf * u + yf * u * (yf * f)) - (yf * v + yf * v * (yf * g));
      == yf * (u - v) + (yf * yf) * (u * f - v * g);
      == s * q;
    }
  }

  /** Two quotients whose cross-multiplied difference is `s q` differ by `s / a / b` times `q`. */
  lemma QuotientSecant(x: real, y: real, a: real, b: real, s: real, q: real)
    requires a != 0.0 && b != 0.0 && x * a - y * b == s * q
    ensures x / b - y / a == (s / a / b) * q
  {
    QuotientDifference(x, y, a, b);
    QuotientFactor(s, q, a, b);
  }
}
