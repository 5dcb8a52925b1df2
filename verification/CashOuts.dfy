/**
 The cash out curve (`contractCashOutQuote`, `cashOutDisplayUnit`, `exitFloorQuote`,
 web/src/lib/cashOutQuote.ts:45-110), in the integer rounding of the contract.
 */
module CashOuts {
  import opened Prelude
  import opened Arithmetic

  /*
   Two roundings down happen in a quote: of the base, the caller's even part of the surplus, and
   of what the tax leaves of it. Everything below is about their products: `QuoteBelowCurve` and
   `QuoteNearCurve` place the quote within two roundings of the exact curve, `CurveComposes` says
   that on the exact curve cashing out twice never gains over cashing out once, and
   `SplittingGainsLittle` puts them together. The arithmetic is cut into small facts about
   natural numbers, because nonlinear steps are only reliable one product at a time.
   */

  const MAX_TAX := 10_000

  // The curve on inputs within the contract's bounds.
  function Quote(surplus: nat, count: nat, supply: nat, tax: nat): nat
    requires tax <= MAX_TAX
  {
    if count == 0 || supply == 0 || surplus == 0 then 0
    else if tax == MAX_TAX then 0
    else if count >= supply then surplus
    else
      var base := MulDiv(surplus, count, supply);
      if tax == 0 then base else MulDiv(base, MAX_TAX - tax + MulDiv(tax, count, supply), MAX_TAX)
  }

  // Anything else throws.
  function ContractCashOutQuote(surplus: int, count: int, supply: int, tax: int): Option<nat> {
    if surplus < 0 || count < 0 || supply < 0 || tax < 0 || tax > MAX_TAX then None
    else Some(Quote(surplus, count, supply, tax))
  }

  // The inner branch: a part of the supply, some tax, something to share.
  predicate Partial(surplus: nat, count: nat, supply: nat, tax: nat) {
    surplus > 0 && 0 < count < supply && tax < MAX_TAX
  }

  function Base(surplus: nat, count: nat, supply: nat): nat
    requires supply > 0
  {
    MulDiv(surplus, count, supply)
  }

  function Numerator(count: nat, supply: nat, tax: nat): nat
    requires supply > 0 && tax <= MAX_TAX
  {
    MAX_TAX - tax + MulDiv(tax, count, supply)
  }

  // With tax 0 the numerator is the whole, so the two branches of the code agree.
  lemma PartialQuote(surplus: nat, count: nat, supply: nat, tax: nat)
    requires Partial(surplus, count, supply, tax)
    ensures Quote(surplus, count, supply, tax) == Base(surplus, count, supply) * Numerator(count, supply, tax) / MAX_TAX
    ensures Numerator(count, supply, tax) <= MAX_TAX
    ensures Quote(surplus, count, supply, tax) <= Base(surplus, count, supply) <= surplus
  {
    MulDivAtMost(tax, count, supply);
    MulDivAtMost(surplus, count, supply);
    MulDivAtMost(Base(surplus, count, supply), Numerator(count, supply, tax), MAX_TAX);
    if tax == 0 {
      QuotientAtMost(0, supply, 0);
      WholeQuotient(Base(surplus, count, supply), MAX_TAX);
    }
  }

  // ---------------------------------------------------------------- one cash out

  /**
   The ends of the curve: full tax leaves nothing, whatever is cashed out, and below full tax
   the whole supply takes the whole surplus; with no tax a part takes its even part of it.
   */
  lemma Ends(surplus: nat, count: nat, supply: nat, tax: nat)
    requires tax <= MAX_TAX
    ensures Quote(surplus, count, supply, MAX_TAX) == 0
    ensures tax < MAX_TAX && count >= supply > 0 ==> Quote(surplus, count, supply, tax) == surplus
    ensures supply > 0 && count <= supply ==> Quote(surplus, count, supply, 0) == surplus * count / supply
    ensures count == 0 || supply == 0 ==> Quote(surplus, count, supply, tax) == 0
  {
    if supply > 0 && count <= supply {
      WholeQuotient(surplus, supply);
    }
  }

  /** A quote never exceeds the surplus. */
  lemma QuoteWithinSurplus(surplus: nat, count: nat, supply: nat, tax: nat)
    requires tax <= MAX_TAX
    ensures Quote(surplus, count, supply, tax) <= surplus
  {
    if Partial(surplus, count, supply, tax) {
      PartialQuote(surplus, count, supply, tax);
    }
  }

  lemma ProductMonotone(a: nat, b: nat, c: nat, d: nat)
    requires a <= b && c <= d
    ensures a * c <= b * d
  {
    Times(a, b, c);
    Times(c, d, b);
  }

  /** More tokens never get less. */
  lemma MonotoneInCount(surplus: nat, count: nat, more: nat, supply: nat, tax: nat)
    requires tax <= MAX_TAX && count <= more
    ensures Quote(surplus, count, supply, tax) <= Quote(surplus, more, supply, tax)
  {
    if Partial(surplus, count, supply, tax) && Partial(surplus, more, supply, tax) {
      PartialQuote(surplus, count, supply, tax);
      PartialQuote(surplus, more, supply, tax);
      Times(count, more, surplus);
      QuotientMonotone(surplus * count, surplus * more, supply);
      Times(count, more, tax);
      QuotientMonotone(tax * count, tax * more, supply);
      ProductMonotone(Base(surplus, count, supply), Base(surplus, more, supply), Numerator(count, supply, tax),
        Numerator(more, supply, tax));
      QuotientMonotone(Base(surplus, count, supply) * Numerator(count, supply, tax),
        Base(surplus, more, supply) * Numerator(more, supply, tax), MAX_TAX);
    } else {
      QuoteWithinSurplus(surplus, count, supply, tax);
    }
  }

  /** A larger surplus never quotes less. */
  lemma MonotoneInSurplus(surplus: nat, larger: nat, count: nat, supply: nat, tax: nat)
    requires tax <= MAX_TAX && surplus <= larger
    ensures Quote(surplus, count, supply, tax) <= Quote(larger, count, supply, tax)
  {
    if Partial(surplus, count, supply, tax) {
      PartialQuote(surplus, count, supply, tax);
      PartialQuote(larger, count, supply, tax);
      Times(surplus, larger, count);
      QuotientMonotone(surplus * count, larger * count, supply);
      var n := Numerator(count, supply, tax);
      Times(Base(surplus, count, supply), Base(larger, count, supply), n);
      QuotientMonotone(Base(surplus, count, supply) * n, Base(larger, count, supply) * n, MAX_TAX);
    }
  }

  // Raising the tax takes more off the numerator than it adds back.
  lemma NumeratorAntitone(count: nat, supply: nat, tax: nat, higher: nat)
    requires count <= supply && supply > 0 && tax <= higher <= MAX_TAX
    ensures Numerator(count, supply, higher) <= Numerator(count, supply, tax)
  {
    var d, f := higher - tax, tax * count / supply;
    Quotient(tax * count, supply);
    Times(count, supply, d);
    assert higher * count == tax * count + d * count;
    assert (f + d) * supply == f * supply + d * supply;
    QuotientAtMost(higher * count, supply, f + d);
  }

  /** A higher tax never quotes more. */
  lemma AntitoneInTax(surplus: nat, count: nat, supply: nat, tax: nat, higher: nat)
    requires tax <= higher <= MAX_TAX
    ensures Quote(surplus, count, supply, higher) <= Quote(surplus, count, supply, tax)
  {
    if Partial(surplus, count, supply, higher) {
      PartialQuote(surplus, count, supply, tax);
      PartialQuote(surplus, count, supply, higher);
      NumeratorAntitone(count, supply, tax, higher);
      var base := Base(surplus, count, supply);
      Times(Numerator(count, supply, higher), Numerator(count, supply, tax), base);
      QuotientMonotone(base * Numerator(count, supply, higher), base * Numerator(count, supply, tax), MAX_TAX);
    }
  }

  /** What stays behind backs each remaining token at least as well as before. */
  lemma BackingNeverFalls(surplus: nat, count: nat, supply: nat, tax: nat)
    requires tax <= MAX_TAX && count <= supply
    ensures Quote(surplus, count, supply, tax) <= surplus
    ensures (surplus - Quote(surplus, count, supply, tax)) * supply >= surplus * (supply - count)
  {
    var q := Quote(surplus, count, supply, tax);
    QuoteWithinSurplus(surplus, count, supply, tax);
    if Partial(surplus, count, supply, tax) {
      PartialQuote(surplus, count, supply, tax);
      Quotient(surplus * count, supply);
      Times(q, Base(surplus, count, supply), supply);
    } else if count == supply {
      assert surplus * (supply - count) == 0;
    } else {
      assert q == 0;
      Times(supply - count, supply, surplus);
    }
    BackingProducts(surplus, q, supply, count);
  }

  lemma BackingProducts(surplus: int, q: int, supply: int, count: int)
    ensures (surplus - q) * supply == surplus * supply - q * supply
    ensures surplus * (supply - count) == surplus * supply - surplus * count
  {
  }

  // ---------------------------------------------------------------- many cash outs

  // Surplus and supply after each of some cash outs, all at one tax.
  function After(surplus: nat, supply: nat, tax: nat, counts: seq<nat>): (nat, nat)
    requires tax <= MAX_TAX
  {
    if counts == [] || counts[0] > supply then (surplus, supply)
    else
      QuoteWithinSurplus(surplus, counts[0], supply, tax);
      After(surplus - Quote(surplus, counts[0], supply, tax), supply - counts[0], tax, counts[1..])
  }

  /** Over any sequence of cash outs, the total paid stays within the surplus and backing never falls. */
  lemma {:induction false} SequenceSafe(surplus: nat, supply: nat, tax: nat, counts: seq<nat>)
    requires tax <= MAX_TAX
    ensures var (left, tokens) := After(surplus, supply, tax, counts);
            left <= surplus && tokens <= supply && left * supply >= surplus * tokens
  {
    if counts != [] && counts[0] <= supply {
      var q, rest := Quote(surplus, counts[0], supply, tax), supply - counts[0];
      BackingNeverFalls(surplus, counts[0], supply, tax);
      SequenceSafe(surplus - q, rest, tax, counts[1..]);
      var (left, tokens) := After(surplus, supply, tax, counts);
      Chain(surplus, supply, surplus - q, rest, left, tokens);
    }
  }

  // Ratios compose, also when nothing is left in the middle.
  lemma Chain(a: nat, s: nat, b: nat, t: nat, c: nat, u: nat)
    requires b * s >= a * t && c * t >= b * u && u <= t && c <= b
    ensures c * s >= a * u
  {
    if t > 0 {
      Times(a * t, b * s, u);
      Times(b * u, c * t, s);
      assert t * (a * u) == a * t * u && b * s * u == b * u * s && c * t * s == t * (c * s);
      CancelLeft(t, a * u, c * s);
    } else {
      assert a * u == 0;
    }
  }

  // ---------------------------------------------------------------- splitting a cash out

  // The curve before rounding is surplus * count * Weight / (MAX_TAX * supply * supply).
  function Weight(count: nat, supply: nat, tax: nat): nat
    requires tax <= MAX_TAX
  {
    Mul(supply, MAX_TAX - tax) + Mul(tax, count)
  }

  lemma NumeratorWeight(count: nat, supply: nat, tax: nat)
    requires supply > 0 && tax <= MAX_TAX
    ensures var n := Numerator(count, supply, tax); n * supply <= Weight(count, supply, tax) < n * supply + supply
  {
    Quotient(tax * count, supply);
    var f := tax * count / supply;
    assert (MAX_TAX - tax + f) * supply == supply * (MAX_TAX - tax) + f * supply;
  }

  // No rounding of the code goes above the curve.
  lemma QuoteBelowCurve(surplus: nat, count: nat, supply: nat, tax: nat)
    requires 0 < count < supply && tax < MAX_TAX
    ensures Quote(surplus, count, supply, tax) * (MAX_TAX * (supply * supply)) <= surplus * Part(count, supply, tax)
  {
    if surplus > 0 {
      var base, n, q := Base(surplus, count, supply), Numerator(count, supply, tax), Quote(surplus, count, supply, tax);
      PartialQuote(surplus, count, supply, tax);
      Quotient(base * n, MAX_TAX);
      Quotient(surplus * count, supply);
      NumeratorWeight(count, supply, tax);
      BelowCore(surplus, count, supply, base, n, q, Weight(count, supply, tax), MAX_TAX);
    }
  }

  lemma BelowCore(s: nat, c: nat, t: nat, base: nat, n: nat, q: nat, w: nat, m: nat)
    requires q * m <= base * n && base * t <= s * c && n * t <= w
    ensures q * (m * (t * t)) <= s * (c * w)
  {
    ProductMonotone(base * t, s * c, n * t, w);
    Times(q * m, base * n, t * t);
    BelowProducts(s, c, t, base, n, q, w, m);
  }

  lemma BelowProducts(s: nat, c: nat, t: nat, base: nat, n: nat, q: nat, w: nat, m: nat)
    ensures base * n * (t * t) == base * t * (n * t) && q * m * (t * t) == q * (m * (t * t)) && s * c * w == s * (c * w)
  {
  }

  // Rounding takes less than two units and one ten-thousandth of the base.
  lemma QuoteNearCurve(surplus: nat, count: nat, supply: nat, tax: nat)
    requires Partial(surplus, count, supply, tax)
    ensures surplus * Part(count, supply, tax)
          < supply * supply * ((Quote(surplus, count, supply, tax) + 2) * MAX_TAX + Base(surplus, count, supply))
  {
    var base, n, q := Base(surplus, count, supply), Numerator(count, supply, tax), Quote(surplus, count, supply, tax);
    PartialQuote(surplus, count, supply, tax);
    Quotient(base * n, MAX_TAX);
    Quotient(surplus * count, supply);
    NumeratorWeight(count, supply, tax);
    WeightWithin(count, supply, tax);
    NearCore(surplus, count, supply, base, n, q, Weight(count, supply, tax), MAX_TAX);
  }

  lemma NearCore(s: nat, c: nat, t: nat, base: nat, n: nat, q: nat, w: nat, m: nat)
    requires t > 0 && s * c <= base * t + t && w <= n * t + t && base * n + 1 <= q * m + m && w <= m * t
    ensures s * (c * w) < t * t * ((q + 2) * m + base)
  {
    Times(s * c, base * t + t, w);
    Times(w, n * t + t, t);
    Times(w, m * t, t);
    Times(w * t, (n * t + t) * t, base);
    Times(base * n + base + m + 1, q * m + m + m + base, t * t);
    Times(1, t, t);
    NearProducts(s, c, t, base, n, q, w, m);
  }

  lemma NearProducts(s: nat, c: nat, t: nat, base: nat, n: nat, q: nat, w: nat, m: nat)
    ensures s * c * w == s * (c * w)
    ensures (base * t + t) * w == w * t * base + w * t
    ensures (n * t + t) * t * base + m * t * t + t * t == (base * n + base + m + 1) * (t * t)
    ensures (q * m + m + m + base) * (t * t) == t * t * ((q + 2) * m + base)
  {
    assert (n * t + t) * t * base == (base * n + base) * (t * t);
    assert m * t * t == m * (t * t);
  }

  lemma WeightWithin(count: nat, supply: nat, tax: nat)
    requires count <= supply && tax <= MAX_TAX
    ensures Weight(count, supply, tax) <= MAX_TAX * supply
  {
    Times(count, supply, tax);
    assert supply * (MAX_TAX - tax) + tax * supply == MAX_TAX * supply;
  }

  // The heart of the matter, on the exact curve: what is left after two cash outs is at least
  // what is left after one cash out of both.
  lemma LeftOver(count: nat, supply: nat, tax: nat)
    requires count <= supply && tax <= MAX_TAX
    ensures MAX_TAX * (supply * supply) - Part(count, supply, tax)
        == (supply - count) * (MAX_TAX * supply + tax * count)
  {
    LeftOverProducts(count, supply - count, tax, MAX_TAX - tax);
  }

  lemma LeftOverProducts(c: nat, l: nat, t: nat, r: nat)
    ensures (t + r) * ((c + l) * (c + l)) - c * ((c + l) * r + t * c) == l * ((t + r) * (c + l) + t * c)
  {
    assert (c + l) * (c + l) == c * c + 2 * (c * l) + l * l;
    assert (t + r) * ((c + l) * (c + l))
      == t * (c * c) + 2 * (t * (c * l)) + t * (l * l) + r * (c * c) + 2 * (r * (c * l)) + r * (l * l);
    assert c * ((c + l) * r + t * c) == r * (c * c) + r * (c * l) + t * (c * c);
    assert l * ((t + r) * (c + l) + t * c) == t * (c * l) + t * (l * l) + r * (c * l) + r * (l * l) + t * (c * l);
  }

  lemma FactorsCompose(c1: nat, c2: nat, s2: nat, tax: nat)
    ensures (MAX_TAX * (s2 + c1) + tax * (c1 + c2)) * (MAX_TAX * s2)
            <= (MAX_TAX * (s2 + c1) + tax * c1) * (MAX_TAX * s2 + tax * c2)
  {
    var a, b := MAX_TAX * s2, MAX_TAX * c1;
    assert (a + b + tax * (c1 + c2)) * a == (a + b + tax * c1) * a + tax * c2 * a
      by { assert tax * (c1 + c2) == tax * c1 + tax * c2; }
    assert (a + b + tax * c1) * (a + tax * c2) == (a + b + tax * c1) * a + (a + b + tax * c1) * (tax * c2);
    Times(a, a + b + tax * c1, tax * c2);
    assert tax * c2 * a == a * (tax * c2);
  }

  // The curve in whole: count * Weight of MAX_TAX * supply^2.
  function Part(count: nat, supply: nat, tax: nat): nat
    requires tax <= MAX_TAX
  {
    Mul(count, Weight(count, supply, tax))
  }

  lemma CurveComposes(c1: nat, c2: nat, supply: nat, tax: nat)
    requires 0 < c1 && c1 + c2 < supply && tax <= MAX_TAX
    ensures var d, s2 := MAX_TAX * (supply * supply), supply - c1;
            var d2 := MAX_TAX * (s2 * s2);
            && Part(c1, supply, tax) <= d && Part(c2, s2, tax) <= d2
            && (d - Part(c1 + c2, supply, tax)) * d2 <= (d - Part(c1, supply, tax)) * (d2 - Part(c2, s2, tax))
  {
    var s2 := supply - c1;
    PartWithin(c1, supply, tax);
    PartWithin(c2, s2, tax);
    LeftOver(c1 + c2, supply, tax);
    FactorsCompose(c1, c2, s2, tax);
    ComposeCore(s2 - c2, s2, MAX_TAX * supply + tax * (c1 + c2), MAX_TAX * supply + tax * c1, MAX_TAX * s2 + tax * c2,
      MAX_TAX);
  }

  lemma PartWithin(count: nat, supply: nat, tax: nat)
    requires count <= supply && tax <= MAX_TAX
    ensures Part(count, supply, tax) <= MAX_TAX * (supply * supply)
    ensures MAX_TAX * (supply * supply) - Part(count, supply, tax)
        == (supply - count) * (MAX_TAX * supply + tax * count)
  {
    LeftOver(count, supply, tax);
    Times(0, supply - count, MAX_TAX * supply + tax * count);
  }

  lemma ComposeCore(l: nat, s2: nat, x: nat, y: nat, z: nat, m: nat)
    requires x * (m * s2) <= y * z
    ensures l * x * (m * (s2 * s2)) <= s2 * y * (l * z)
  {
    Times(x * (m * s2), y * z, l * s2);
    FourFactors(l, x, m, s2);
    FourFactors2(s2, y, l, z);
  }

  lemma FourFactors(l: nat, x: nat, m: nat, s: nat)
    ensures l * x * (m * (s * s)) == x * (m * s) * (l * s)
  {
  }

  lemma FourFactors2(s: nat, y: nat, l: nat, z: nat)
    ensures s * y * (l * z) == y * z * (l * s)
  {
  }

  // Two rounded cash outs get no more than the exact curve gives for both at once.
  lemma TwoBelowCurve(s: nat, q1: nat, q2: nat, d: nat, p1: nat, d2: nat, p2: nat, p: nat)
    requires q1 <= s && d > 0 && d2 > 0 && p1 <= d && p2 <= d2 && p <= d
    requires q1 * d <= s * p1 && q2 * d2 <= (s - q1) * p2
    requires (d - p) * d2 <= (d - p1) * (d2 - p2)
    ensures (q1 + q2) * d <= s * p
  {
    var r2 := d2 - p2;
    assert (q1 + q2) * d2 <= q1 * r2 + s * p2 by {
      assert (q1 + q2) * d2 == q1 * d2 + q2 * d2 && (s - q1) * p2 == s * p2 - q1 * p2 && q1 * r2 == q1 * d2 - q1 * p2;
    }
    Times((q1 + q2) * d2, q1 * r2 + s * p2, d);
    Times(q1 * d, s * p1, r2);
    Times((d - p) * d2, (d - p1) * r2, s);
    TwoProducts(s, q1, q2, d, p1, d2, p2, p, r2);
    CancelLeft(d2, (q1 + q2) * d, s * p);
  }

  lemma TwoProducts(s: nat, q1: nat, q2: nat, d: nat, p1: nat, d2: nat, p2: nat, p: nat, r2: nat)
    requires p1 <= d && p <= d && d2 == p2 + r2
    ensures (q1 + q2) * d2 * d == d2 * ((q1 + q2) * d)
    ensures (q1 * r2 + s * p2) * d == q1 * d * r2 + s * (p2 * d)
    ensures s * p1 * r2 + s * (p2 * d) + (d - p1) * r2 * s == s * (d * d2)
    ensures (d - p) * d2 * s + d2 * (s * p) == s * (d * d2)
  {
    Associate(q1 + q2, d2, d);
    Distribute(q1 * r2, s * p2, d);
    Associate(q1, r2, d);
    Associate(s, p2, d);
    Remainder(s, d, p1, r2);
    assert s * (d * d2) == s * (p2 * d) + s * (d * r2) by {
      Distribute(p2, r2, d);
      Distribute(p2 * d, r2 * d, s);
    }
    Remainder(s, d, p, d2);
    Associate(s, p, d2);
  }

  lemma Remainder(s: nat, d: nat, p: nat, r: nat)
    requires p <= d
    ensures (d - p) * r * s + s * p * r == s * (d * r)
  {
    Distribute(d - p, p, r);
    Distribute((d - p) * r, p * r, s);
    Associate(s, p, r);
  }

  // Both cash outs in turn, and both at once.
  function InTwo(surplus: nat, c1: nat, c2: nat, supply: nat, tax: nat): nat
    requires tax <= MAX_TAX && c1 + c2 <= supply
  {
    QuoteWithinSurplus(surplus, c1, supply, tax);
    var q1 := Quote(surplus, c1, supply, tax);
    q1 + Quote(surplus - q1, c2, supply - c1, tax)
  }

  lemma InTwoWithin(surplus: nat, c1: nat, c2: nat, supply: nat, tax: nat)
    requires tax <= MAX_TAX && c1 + c2 <= supply
    ensures InTwo(surplus, c1, c2, supply, tax) <= surplus
  {
    QuoteWithinSurplus(surplus, c1, supply, tax);
    QuoteWithinSurplus(surplus - Quote(surplus, c1, supply, tax), c2, supply - c1, tax);
  }

  lemma InTwoBelowCurve(surplus: nat, c1: nat, c2: nat, supply: nat, tax: nat)
    requires Partial(surplus, c1 + c2, supply, tax) && c1 > 0 && c2 > 0
    ensures InTwo(surplus, c1, c2, supply, tax) * (MAX_TAX * (supply * supply)) <= surplus * Part(c1 + c2, supply, tax)
  {
    var s2, q1 := supply - c1, Quote(surplus, c1, supply, tax);
    QuoteWithinSurplus(surplus, c1, supply, tax);
    QuoteBelowCurve(surplus, c1, supply, tax);
    QuoteBelowCurve(surplus - q1, c2, s2, tax);
    CurveComposes(c1, c2, supply, tax);
    PartWithin(c1 + c2, supply, tax);
    Positive(supply);
    Positive(s2);
    TwoBelowCurve(surplus, q1, Quote(surplus - q1, c2, s2, tax), MAX_TAX * (supply * supply), Part(c1, supply, tax),
                  MAX_TAX * (s2 * s2), Part(c2, s2, tax), Part(c1 + c2, supply, tax));
  }

  lemma Positive(s: nat)
    requires s > 0
    ensures MAX_TAX * (s * s) > 0
  {
    Times(1, s, s);
  }

  /**
   Splitting a cash out in two gains strictly less than two units and a ten-thousandth of the
   base over cashing out both at once; without tax it gains nothing.
   */
  lemma SplittingGainsLittle(surplus: nat, c1: nat, c2: nat, supply: nat, tax: nat)
    requires tax <= MAX_TAX && c1 + c2 <= supply && supply > 0
    ensures InTwo(surplus, c1, c2, supply, tax) * MAX_TAX
          < (Quote(surplus, c1 + c2, supply, tax) + 2) * MAX_TAX + Base(surplus, c1 + c2, supply)
    ensures tax == 0 ==> InTwo(surplus, c1, c2, supply, tax) <= Quote(surplus, c1 + c2, supply, tax)
  {
    var all, two := Quote(surplus, c1 + c2, supply, tax), InTwo(surplus, c1, c2, supply, tax);
    if Partial(surplus, c1 + c2, supply, tax) && c1 > 0 && c2 > 0 {
      InTwoBelowCurve(surplus, c1, c2, supply, tax);
      QuoteNearCurve(surplus, c1 + c2, supply, tax);
      SplitCore(two, MAX_TAX, supply, (all + 2) * MAX_TAX + Base(surplus, c1 + c2, supply),
        surplus * Part(c1 + c2, supply, tax));
      if tax == 0 {
        UntaxedSplit(surplus, c1 + c2, supply, two);
      }
    } else {
      SplitAtTheEdge(surplus, c1, c2, supply, tax);
    }
  }

  lemma SplitCore(two: nat, m: nat, t: nat, bound: nat, curve: nat)
    requires two * (m * (t * t)) <= curve < t * t * bound
    ensures two * m < bound
  {
    assert two * (m * (t * t)) == t * t * (two * m);
    CancelLeftStrict(t * t, two * m, bound);
  }

  // Everything at once, nothing in one of the parts, no surplus or no payout at all.
  lemma SplitAtTheEdge(surplus: nat, c1: nat, c2: nat, supply: nat, tax: nat)
    requires tax <= MAX_TAX && c1 + c2 <= supply && supply > 0
    requires !(Partial(surplus, c1 + c2, supply, tax) && c1 > 0 && c2 > 0)
    ensures InTwo(surplus, c1, c2, supply, tax) <= Quote(surplus, c1 + c2, supply, tax)
  {
    InTwoWithin(surplus, c1, c2, supply, tax);
  }

  lemma UntaxedSplit(surplus: nat, count: nat, supply: nat, two: nat)
    requires Partial(surplus, count, supply, 0)
    requires two * (MAX_TAX * (supply * supply)) <= surplus * Part(count, supply, 0)
    ensures two <= Quote(surplus, count, supply, 0)
  {
    assert Part(count, supply, 0) == count * (supply * MAX_TAX);
    assert surplus * (count * (supply * MAX_TAX)) == MAX_TAX * supply * (surplus * count)
      by { UntaxedProducts(surplus, count, supply, MAX_TAX); }
    assert two * (MAX_TAX * (supply * supply)) == MAX_TAX * supply * (two * supply)
      by { UntaxedProducts2(two, supply, MAX_TAX); }
    CancelLeft(MAX_TAX * supply, two * supply, surplus * count);
    QuotientAtLeast(surplus * count, supply, two);
  }

  lemma UntaxedProducts(s: nat, c: nat, t: nat, m: nat)
    ensures s * (c * (t * m)) == m * t * (s * c)
  {
  }

  lemma UntaxedProducts2(two: nat, t: nat, m: nat)
    ensures two * (m * (t * t)) == m * t * (two * t)
  {
  }

  // ---------------------------------------------------------------- the displayed unit

  function Pow10(k: nat): (p: nat)
    ensures p >= 1
  {
    if k == 0 then 1 else 10 * Pow10(k - 1)
  }

  const MAX_DECIMALS := 36

  datatype Unit = OutOfRange | NoSupply | Unit(amount: nat)

  // The largest decimal unit of at most one token that the supply covers.
  ghost predicate LargestUnit(unit: nat, supply: int, decimals: int) {
    exists k: nat :: k <= decimals && unit == Pow10(k) && unit <= supply && (k < decimals ==> Pow10(k + 1) > supply)
  }

  method CashOutDisplayUnit(totalSupply: int, tokenDecimals: int) returns (r: Unit)
    ensures r.OutOfRange? <==> tokenDecimals < 0 || tokenDecimals > MAX_DECIMALS
    ensures r.NoSupply? <==> 0 <= tokenDecimals <= MAX_DECIMALS && totalSupply <= 0
    ensures r.Unit? ==> LargestUnit(r.amount, totalSupply, tokenDecimals)
  {
    if tokenDecimals < 0 || tokenDecimals > MAX_DECIMALS { return OutOfRange; }
    if totalSupply <= 0 { return NoSupply; }
    var unit := Pow10(tokenDecimals);
    ghost var k: nat := tokenDecimals;
    while unit > totalSupply && unit > 1
      invariant k <= tokenDecimals && unit == Pow10(k) && (k < tokenDecimals ==> Pow10(k + 1) > totalSupply)
      decreases k
    {
      unit := unit / 10;
      k := k - 1;
    }
    r := Unit(unit);
  }

  /** The exit floor quotes exactly that unit against the minted and the reserved supply. */
  method ExitFloorQuote(minted: int, reserved: int, surplus: int, tax: int, decimals: int)
    returns (r: Option<(nat, nat)>)
    ensures r.Some? ==>
              && minted + reserved > 0 && LargestUnit(r.value.0, minted + reserved, decimals)
              && 0 <= tax <= MAX_TAX && surplus >= 0
              && r.value.1 == Quote(surplus, r.value.0, minted + reserved, tax) <= surplus
    ensures r.None? <==>
              || minted + reserved <= 0 || decimals < 0 || decimals > MAX_DECIMALS
              || surplus < 0 || tax < 0 || tax > MAX_TAX
  {
    var unit := CashOutDisplayUnit(minted + reserved, decimals);
    if !unit.Unit? { return None; }
    var reclaim := ContractCashOutQuote(surplus, unit.amount, minted + reserved, tax);
    if reclaim.None? { return None; }
    QuoteWithinSurplus(surplus, unit.amount, minted + reserved, tax);
    r := Some((unit.amount, reclaim.value));
  }
}
