/** Numbers written in a base, most significant digit first, with and without leading zeros. */
module Positional {
  import opened Arithmetic

  type Digits = seq<nat>

  predicate InBase(d: Digits, base: nat) { forall i | 0 <= i < |d| :: d[i] < base }

  function Val(d: Digits, base: nat): nat {
    if d == [] then 0 else Val(d[..|d| - 1], base) * base + d[|d| - 1]
  }

  function Pow(base: nat, n: nat): nat { if n == 0 then 1 else Pow(base, n - 1) * base }

  function LeadingZeros(d: Digits): (k: nat)
    ensures k <= |d|
  {
    if d == [] || d[0] != 0 then 0 else 1 + LeadingZeros(d[1..])
  }

  function Zeros(n: nat): (d: Digits)
    ensures |d| == n && forall i | 0 <= i < n :: d[i] == 0
  {
    seq(n, _ => 0)
  }

  // The digits of `v` without leading zeros; none for zero.
  function DigitsOf(v: nat, base: nat): Digits
    requires base >= 2
    decreases v
  {
    if v == 0 then [] else
      QuotientSmaller(v, base);
      DigitsOf(v / base, base) + [v % base]
  }

  // `v` in exactly `n` digits.
  function FixedDigits(v: nat, base: nat, n: nat): (d: Digits)
    requires base >= 2
    ensures |d| == n
  {
    if n == 0 then [] else FixedDigits(v / base, base, n - 1) + [v % base]
  }

  lemma QuotientSmaller(v: nat, base: nat)
    requires v > 0 && base >= 2
    ensures v / base < v
  {
  }

  // ---------------------------------------------------------------- arithmetic

  lemma DivModUnique(x: nat, r: nat, y: nat, s: nat, b: nat)
    requires r < b && s < b && x * b + r == y * b + s
    ensures x == y && r == s
  {
    if x < y {
      Times(x + 1, y, b);
    } else if y < x {
      Times(y + 1, x, b);
    }
  }

  lemma DivMod(v: nat, b: nat)
    requires b > 0
    ensures v / b * b + v % b == v && v % b < b
  {
  }

  lemma {:induction false} PowPositive(base: nat, n: nat)
    requires base > 0
    ensures Pow(base, n) > 0
  {
    if n > 0 {
      PowPositive(base, n - 1);
      Times(1, Pow(base, n - 1), base);
    }
  }

  lemma {:induction false} PowMonotone(base: nat, m: nat, n: nat)
    requires base > 0 && m <= n
    ensures Pow(base, m) <= Pow(base, n)
  {
    if m < n {
      PowMonotone(base, m, n - 1);
      PowPositive(base, n - 1);
      Times(1, base, Pow(base, n - 1));
    }
  }

  lemma {:induction false} PowAdd(base: nat, m: nat, n: nat)
    ensures Pow(base, m + n) == Pow(base, m) * Pow(base, n)
  {
    if n > 0 {
      PowAdd(base, m, n - 1);
      assert Pow(base, m) * (Pow(base, n - 1) * base) == Pow(base, m) * Pow(base, n - 1) * base;
    }
  }

  // ---------------------------------------------------------------- values

  lemma {:induction false} ValBound(d: Digits, base: nat)
    requires InBase(d, base)
    ensures Val(d, base) < Pow(base, |d|)
  {
    if d != [] {
      ValBound(d[..|d| - 1], base);
      Times(Val(d[..|d| - 1], base) + 1, Pow(base, |d| - 1), base);
    }
  }

  lemma {:induction false} ValConcat(a: Digits, b: Digits, base: nat)
    ensures Val(a + b, base) == Val(a, base) * Pow(base, |b|) + Val(b, base)
  {
    if b == [] {
      assert a + b == a;
    } else {
      var c := b[..|b| - 1];
      ValConcat(a, c, base);
      assert (a + b)[..|a + b| - 1] == a + c;
      var x, p, v := Val(a, base), Pow(base, |c|), Val(c, base);
      DistributeOver(x, p, v, base);
    }
  }

  lemma DistributeOver(x: nat, p: nat, v: nat, base: nat)
    ensures (x * p + v) * base == x * (p * base) + v * base
  {
  }

  // One more digit at the end.
  lemma {:induction false} ValAppend(d: Digits, x: nat, base: nat)
    ensures Val(d + [x], base) == Val(d, base) * base + x
    ensures InBase(d, base) && x < base ==> InBase(d + [x], base)
  {
    assert (d + [x])[..|d|] == d;
  }

  lemma {:induction false} ValZeros(k: nat, base: nat)
    ensures Val(Zeros(k), base) == 0
  {
    if k > 0 {
      ValZeros(k - 1, base);
      assert Zeros(k)[..k - 1] == Zeros(k - 1);
    }
  }

  // In a given length, a value has one numeral.
  lemma {:induction false} FixedUnique(a: Digits, b: Digits, base: nat)
    requires InBase(a, base) && InBase(b, base) && |a| == |b| && Val(a, base) == Val(b, base)
    ensures a == b
  {
    if a != [] {
      var n := |a| - 1;
      DivModUnique(Val(a[..n], base), a[n], Val(b[..n], base), b[n], base);
      FixedUnique(a[..n], b[..n], base);
      assert a == a[..n] + [a[n]] && b == b[..n] + [b[n]];
    }
  }

  // A numeral with a non-zero first digit is at least the power of its length.
  lemma {:induction false} ValAtLeast(d: Digits, base: nat)
    requires InBase(d, base) && d != [] && d[0] != 0
    ensures Val(d, base) >= Pow(base, |d| - 1)
  {
    assert d == [d[0]] + d[1..];
    ValConcat([d[0]], d[1..], base);
    assert Val([d[0]], base) == d[0] by { assert [d[0]][..0] == []; }
    Times(1, d[0], Pow(base, |d| - 1));
  }

  lemma {:induction false} LongerIsMore(a: Digits, b: Digits, base: nat)
    requires InBase(a, base) && InBase(b, base) && base > 0 && |a| < |b| && b[0] != 0
    ensures Val(a, base) < Val(b, base)
  {
    ValBound(a, base);
    ValAtLeast(b, base);
    PowMonotone(base, |a|, |b| - 1);
  }

  lemma {:induction false} StripZeros(d: Digits, base: nat)
    ensures var k := LeadingZeros(d);
            d == Zeros(k) + d[k..] && Val(d[k..], base) == Val(d, base) && (k < |d| ==> d[k] != 0)
  {
    var k := LeadingZeros(d);
    AllZeros(d);
    assert d == Zeros(k) + d[k..];
    ValConcat(Zeros(k), d[k..], base);
    ValZeros(k, base);
  }

  lemma {:induction false} AllZeros(d: Digits)
    ensures forall i | 0 <= i < LeadingZeros(d) :: d[i] == 0
    ensures LeadingZeros(d) < |d| ==> d[LeadingZeros(d)] != 0
  {
    if d != [] && d[0] == 0 {
      AllZeros(d[1..]);
    }
  }

  lemma {:induction false} CountZeros(k: nat, d: Digits)
    requires d == [] || d[0] != 0
    ensures LeadingZeros(Zeros(k) + d) == k
  {
    if k > 0 {
      assert (Zeros(k) + d)[1..] == Zeros(k - 1) + d;
      CountZeros(k - 1, d);
    } else {
      assert Zeros(0) + d == d;
    }
  }

  /** A numeral is determined by its value and its number of leading zeros. */
  lemma {:induction false} NumeralUnique(a: Digits, b: Digits, base: nat)
    requires InBase(a, base) && InBase(b, base) && base > 0
    requires LeadingZeros(a) == LeadingZeros(b) && Val(a, base) == Val(b, base)
    ensures a == b
  {
    var k := LeadingZeros(a);
    StripZeros(a, base);
    StripZeros(b, base);
    if |a| < |b| {
      LongerIsMore(a[k..], b[k..], base);
    } else if |b| < |a| {
      LongerIsMore(b[k..], a[k..], base);
    }
    FixedUnique(a[k..], b[k..], base);
  }

  // Dividing off the last digit and putting it back.
  lemma {:induction false} PutBack(d: Digits, v: nat, q: nat, r: nat, base: nat)
    requires InBase(d, base) && Val(d, base) == q && r < base && q * base + r == v
    ensures InBase(d + [r], base) && Val(d + [r], base) == v
  {
    ValAppend(d, r, base);
  }

  lemma {:induction false} DigitsOfValue(v: nat, base: nat)
    requires base >= 2
    ensures InBase(DigitsOf(v, base), base) && Val(DigitsOf(v, base), base) == v
    decreases v
  {
    if v > 0 {
      QuotientSmaller(v, base);
      DigitsOfValue(v / base, base);
      DivMod(v, base);
      PutBack(DigitsOf(v / base, base), v, v / base, v % base, base);
    }
  }

  lemma {:induction false} DigitsOfLeading(v: nat, base: nat)
    requires base >= 2 && v > 0
    ensures DigitsOf(v, base) != [] && DigitsOf(v, base)[0] != 0
    decreases v
  {
    QuotientSmaller(v, base);
    if v / base == 0 {
      DivMod(v, base);
      assert DigitsOf(0, base) == [];
    } else {
      DigitsOfLeading(v / base, base);
    }
  }

  lemma {:induction false} FixedDigitsValue(v: nat, base: nat, n: nat)
    requires base >= 2 && v < Pow(base, n)
    ensures InBase(FixedDigits(v, base, n), base) && Val(FixedDigits(v, base, n), base) == v
  {
    if n > 0 {
      QuotientBelow(v, base, Pow(base, n - 1));
      FixedDigitsValue(v / base, base, n - 1);
      DivMod(v, base);
      PutBack(FixedDigits(v / base, base, n - 1), v, v / base, v % base, base);
    }
  }

  // The numeral of `v` with `k` leading zeros.
  function Numeral(k: nat, v: nat, base: nat): Digits
    requires base >= 2
  {
    Zeros(k) + DigitsOf(v, base)
  }

  lemma {:induction false} NumeralFacts(k: nat, v: nat, base: nat)
    requires base >= 2
    ensures var d := Numeral(k, v, base); InBase(d, base) && LeadingZeros(d) == k && Val(d, base) == v
  {
    DigitsOfValue(v, base);
    if v > 0 {
      DigitsOfLeading(v, base);
    }
    CountZeros(k, DigitsOf(v, base));
    ValConcat(Zeros(k), DigitsOf(v, base), base);
    ValZeros(k, base);
  }
}
