/** Integer arithmetic that several of the proofs share.  Times keeps a product out of the solver's
    sight where only these laws about it are needed. */
module Arithmetic {

  ghost function Times(a: int, b: int): int
  {
    a * b
  }

  lemma TimesMono(a: int, b: int, c: nat)
    requires a <= b
    ensures Times(a, c) <= Times(b, c)
  {
    MulLe(a, b, c);
  }

  lemma TimesSum(a: int, b: int, c: int)
    ensures Times(a + b, c) == Times(a, c) + Times(b, c)
    ensures Times(0, c) == 0
  {}

  lemma MulLe(a: int, b: int, c: nat)
    requires a <= b
    ensures a * c <= b * c && c * a <= c * b
  {
    assert (b - a) * c >= 0;
  }

  lemma MulMono(a: nat, b: nat, c: nat, d: nat)
    requires a <= b && c <= d
    ensures a * c <= b * d
  {
    MulLe(a, b, c);
    MulLe(c, d, b);
  }

  lemma CancelLess(c: nat, a: int, b: int)
    ensures c * a < c * b ==> a < b
  {
    if b <= a {
      MulLe(b, a, c);
    }
  }

  lemma CancelLe(c: int, a: int, b: int)
    requires c > 0
    ensures c * a <= c * b ==> a <= b
  {
    if b < a {
      MulLe(b + 1, a, c);
      Distribute(c, b, 1);
    }
  }

  lemma Distribute(c: int, a: int, b: int)
    ensures c * (a + b) == c * a + c * b
  {}

  /** A quotient is below k exactly when the dividend is below k divisors. */
  lemma QuotientBelow(a: nat, d: nat, k: nat)
    requires d > 0
    ensures a / d < k <==> a < d * k
  {
    var q := a / d;
    assert d * q <= a < d * q + d;
    if q < k {
      MulLe(q + 1, k, d);
      Distribute(d, q, 1);
    } else {
      MulLe(k, q, d);
    }
  }

  lemma DivMono(a: nat, b: nat, d: nat)
    requires a <= b && d > 0
    ensures a / d <= b / d
  {
    QuotientBelow(a, d, b / d + 1);
    QuotientBelow(b, d, b / d + 1);
  }
}
