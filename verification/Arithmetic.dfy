/** Products and quotients of natural numbers, one fact at a time. */
module Arithmetic {
  lemma Times(a: nat, b: nat, c: nat)
    requires a <= b
    ensures a * c <= b * c
  {
  }

  lemma Associate(a: nat, b: nat, c: nat)
    ensures a * b * c == b * (a * c) && a * b * c == a * c * b && a * b * c == a * (b * c)
  {
  }

  lemma Distribute(a: nat, b: nat, c: nat)
    ensures (a + b) * c == a * c + b * c
  {
  }

  lemma CancelLeft(q: nat, a: nat, b: nat)
    requires q > 0 && q * a <= q * b
    ensures a <= b
  {
    if a > b {
      Times(b + 1, a, q);
    }
  }

  lemma CancelLeftStrict(q: nat, a: nat, b: nat)
    requires q * a < q * b
    ensures a < b
  {
    if a >= b {
      Times(b, a, q);
    }
  }

  lemma Quotient(a: nat, b: nat)
    requires b > 0
    ensures a / b * b <= a < a / b * b + b
  {
  }

  lemma QuotientAtLeast(a: nat, b: nat, q: nat)
    requires b > 0 && q * b <= a
    ensures q <= a / b
  {
    Quotient(a, b);
    if q > a / b {
      Times(a / b + 1, q, b);
    }
  }

  lemma QuotientAtMost(a: nat, b: nat, q: nat)
    requires b > 0 && a < q * b + b
    ensures a / b <= q
  {
    Quotient(a, b);
    if a / b > q {
      Times(q + 1, a / b, b);
    }
  }

  lemma QuotientBelow(a: nat, b: nat, q: nat)
    requires b > 0 && a < q * b
    ensures a / b < q
  {
    Quotient(a, b);
    if a / b >= q {
      Times(q, a / b, b);
    }
  }

  // a * b / c, rounded down.
  function MulDiv(a: nat, b: nat, c: nat): nat
    requires c > 0
  {
    Div(Mul(a, b), c)
  }

  function Mul(a: nat, b: nat): nat {
    Times(0, a, b);
    a * b
  }

  function Div(a: nat, b: nat): nat
    requires b > 0
  {
    a / b
  }

  lemma MulDivAtMost(a: nat, b: nat, c: nat)
    requires c > 0 && b <= c
    ensures MulDiv(a, b, c) <= a && MulDiv(b, a, c) <= a
  {
    Times(b, c, a);
    QuotientAtMost(a * b, c, a);
    QuotientAtMost(b * a, c, a);
  }

  lemma QuotientMonotone(a: nat, c: nat, b: nat)
    requires b > 0 && a <= c
    ensures a / b <= c / b
  {
    Quotient(a, b);
    QuotientAtLeast(c, b, a / b);
  }

  lemma WholeQuotient(a: nat, b: nat)
    requires b > 0
    ensures a * b / b == a
  {
    QuotientAtMost(a * b, b, a);
    QuotientAtLeast(a * b, b, a);
  }

  lemma WholeQuotientLeft(a: nat, b: nat)
    requires b > 0
    ensures b * a / b == a
  {
    WholeQuotient(a, b);
    Product(a, b);
  }

  lemma Product(a: nat, b: nat)
    ensures a * b == b * a
  {
  }
}
