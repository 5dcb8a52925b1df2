/**
 Base58btc (`decodeBase58`, web/src/lib/ipfs-cid.ts:19-39). The decoder multiplies a list of
 bytes, least significant first, by 58 in place; what it computes is the base 256 numeral of the
 base 58 value, with one leading zero byte for each leading '1'.
 */
module Base58 {
  import opened Prelude
  import opened Positional

  // ---------------------------------------------------------------- the alphabet

  // Digits, upper-case letters without I and O, lower-case letters without l.
  function Digit(c: char): (d: Option<nat>)
    ensures d.Some? ==> d.value < 58
  {
    if '1' <= c <= '9' then Some((c - '1') as nat)
    else if 'A' <= c <= 'H' then Some((c - 'A') as nat + 9)
    else if 'J' <= c <= 'N' then Some((c - 'J') as nat + 17)
    else if 'P' <= c <= 'Z' then Some((c - 'P') as nat + 22)
    else if 'a' <= c <= 'k' then Some((c - 'a') as nat + 33)
    else if 'm' <= c <= 'z' then Some((c - 'm') as nat + 44)
    else None
  }

  function Symbol(d: nat): char
    requires d < 58
  {
    if d < 9 then '1' + d as char
    else if d < 17 then 'A' + (d - 9) as char
    else if d < 22 then 'J' + (d - 17) as char
    else if d < 33 then 'P' + (d - 22) as char
    else if d < 44 then 'a' + (d - 33) as char
    else 'm' + (d - 44) as char
  }

  lemma DigitOfSymbol(d: nat)
    requires d < 58
    ensures Digit(Symbol(d)) == Some(d)
  {
  }

  lemma SymbolOfDigit(c: char)
    requires Digit(c).Some?
    ensures Symbol(Digit(c).value) == c
  {
  }

  predicate Alphabetic(s: string) { forall i | 0 <= i < |s| :: Digit(s[i]).Some? }

  function Read(s: string): (d: Digits)
    requires Alphabetic(s)
    ensures |d| == |s| && InBase(d, 58)
  {
    seq(|s|, i requires 0 <= i < |s| => Digit(s[i]).value)
  }

  function Write(d: Digits): (s: string)
    requires InBase(d, 58)
    ensures |s| == |d|
  {
    seq(|d|, i requires 0 <= i < |d| => Symbol(d[i]))
  }

  lemma ReadWrite(d: Digits)
    requires InBase(d, 58)
    ensures Alphabetic(Write(d)) && Read(Write(d)) == d
  {
    forall i | 0 <= i < |d| ensures Digit(Write(d)[i]) == Some(d[i]) {
      DigitOfSymbol(d[i]);
    }
  }

  lemma ReadInjective(s: string, t: string)
    requires Alphabetic(s) && Alphabetic(t) && Read(s) == Read(t)
    ensures s == t
  {
    forall i | 0 <= i < |s| ensures s[i] == t[i] {
      assert Read(s)[i] == Read(t)[i];
      SymbolOfDigit(s[i]);
      SymbolOfDigit(t[i]);
    }
  }

  // ---------------------------------------------------------------- what decoding means

  /** `bytes` is the base 256 numeral of the base 58 text, leading '1's becoming leading zeros. */
  predicate Decodes(s: string, bytes: Digits) {
    && s != "" && Alphabetic(s) && InBase(bytes, 256)
    && LeadingZeros(bytes) == LeadingZeros(Read(s)) && Val(bytes, 256) == Val(Read(s), 58)
  }

  function Encode(bytes: Digits): string {
    NumeralFacts(LeadingZeros(bytes), Val(bytes, 256), 58);
    Write(Numeral(LeadingZeros(bytes), Val(bytes, 256), 58))
  }

  /** Decoding is injective on nonempty texts. */
  lemma DecodeInjective(s: string, t: string, bytes: Digits)
    requires Decodes(s, bytes) && Decodes(t, bytes)
    ensures s == t
  {
    NumeralUnique(Read(s), Read(t), 58);
    ReadInjective(s, t);
  }

  /** Decoding and encoding undo each other. */
  lemma EncodeRoundTrip(s: string, bytes: Digits)
    requires bytes != [] && InBase(bytes, 256)
    ensures Decodes(s, bytes) <==> s == Encode(bytes)
  {
    var k, v := LeadingZeros(bytes), Val(bytes, 256);
    NumeralFacts(k, v, 58);
    ReadWrite(Numeral(k, v, 58));
    StripZeros(bytes, 256);
    if k < |bytes| {
      ValAtLeast(bytes[k..], 256);
      PowPositive(256, |bytes| - k - 1);
      DigitsOfValue(v, 58);
    }
    assert Decodes(Encode(bytes), bytes);
    if Decodes(s, bytes) {
      DecodeInjective(s, Encode(bytes), bytes);
    }
  }

  // ---------------------------------------------------------------- multiplying in place

  function ValLE(bytes: Digits): nat { if bytes == [] then 0 else bytes[0] + 256 * ValLE(bytes[1..]) }

  function Carried(carry: nat): Digits { if carry == 0 then [] else [carry % 256] + Carried(carry / 256) }

  // `bytes * 58 + carry`.
  function MulAdd(bytes: Digits, carry: nat): Digits {
    if bytes == [] then Carried(carry)
    else var next := bytes[0] * 58 + carry; [next % 256] + MulAdd(bytes[1..], next / 256)
  }

  function Reversed(d: Digits): (r: Digits)
    ensures |r| == |d|
  {
    if d == [] then [] else Reversed(d[1..]) + [d[0]]
  }

  // No superfluous high byte.
  predicate Minimal(bytes: Digits) { bytes == [0] || (bytes != [] && bytes[|bytes| - 1] != 0) }

  lemma {:induction false} CarriedFacts(carry: nat)
    ensures InBase(Carried(carry), 256) && ValLE(Carried(carry)) == carry
    ensures carry > 0 ==> Minimal(Carried(carry))
    decreases carry
  {
    if carry > 0 {
      CarriedFacts(carry / 256);
    }
  }

  lemma {:induction false} MulAddFacts(bytes: Digits, carry: nat)
    requires InBase(bytes, 256)
    ensures InBase(MulAdd(bytes, carry), 256) && ValLE(MulAdd(bytes, carry)) == ValLE(bytes) * 58 + carry
    ensures |MulAdd(bytes, carry)| >= |bytes|
  {
    if bytes == [] {
      CarriedFacts(carry);
    } else {
      var next := bytes[0] * 58 + carry;
      MulAddFacts(bytes[1..], next / 256);
    }
  }

  lemma {:induction false} MulAddMinimal(bytes: Digits, carry: nat)
    requires InBase(bytes, 256) && Minimal(bytes) && carry < 58
    ensures Minimal(MulAdd(bytes, carry))
  {
    var next := bytes[0] * 58 + carry;
    var rest := MulAdd(bytes[1..], next / 256);
    if |bytes| > 1 {
      MulAddMinimal(bytes[1..], next / 256);
      MulAddFacts(bytes[1..], next / 256);
      NoZeroTail(bytes[1..], next / 256);
    } else {
      CarriedFacts(next / 256);
    }
  }

  // With a non-zero last byte the product is not zero.
  lemma {:induction false} NoZeroTail(bytes: Digits, carry: nat)
    requires InBase(bytes, 256) && bytes != [] && bytes[|bytes| - 1] != 0
    ensures MulAdd(bytes, carry) != [0]
  {
    MulAddFacts(bytes, carry);
    PositiveLE(bytes);
  }

  lemma {:induction false} PositiveLE(bytes: Digits)
    requires bytes != [] && bytes[|bytes| - 1] != 0
    ensures ValLE(bytes) > 0
  {
    if |bytes| > 1 {
      PositiveLE(bytes[1..]);
    }
  }

  lemma {:induction false} ReversedValue(d: Digits)
    ensures Val(Reversed(d), 256) == ValLE(d)
    ensures InBase(d, 256) ==> InBase(Reversed(d), 256)
    ensures d != [] ==> Reversed(d)[0] == d[|d| - 1]
  {
    if d != [] {
      ReversedValue(d[1..]);
      ValAppend(Reversed(d[1..]), d[0], 256);
    }
  }

  lemma {:induction false} ReversedZeros(d: Digits, k: nat)
    ensures Reversed(d + Zeros(k)) == Zeros(k) + Reversed(d)
  {
    if d == [] {
      assert d + Zeros(k) == Zeros(k);
      if k > 0 {
        assert Zeros(k)[1..] == Zeros(k - 1) && Zeros(k - 1) + [0] == Zeros(k) && Zeros(k - 1) + [] == Zeros(k - 1);
        ReversedZeros([], k - 1);
        assert [] + Zeros(k - 1) == Zeros(k - 1);
      }
      assert Zeros(k) + [] == Zeros(k);
    } else {
      ReversedZeros(d[1..], k);
      assert (d + Zeros(k))[1..] == d[1..] + Zeros(k);
    }
  }

  // One character: every byte times 58 plus the carry from below, then the carry that is left.
  method MulAddInPlace(bytes: Digits, digit: nat) returns (product: Digits)
    ensures product == MulAdd(bytes, digit)
  {
    product := bytes;
    var carry := digit;
    for index := 0 to |bytes|
      invariant |product| == |bytes| && product[index..] == bytes[index..]
      invariant product[..index] + MulAdd(bytes[index..], carry) == MulAdd(bytes, digit)
    {
      var next := product[index] * 58 + carry;
      assert product[index] == product[index..][0] == bytes[index] && bytes[index..][1..] == bytes[index + 1..];
      product := product[index := next % 256];
      carry := next / 256;
      assert product[..index + 1] == product[..index] + [next % 256];
    }
    assert product[..|bytes|] == product && bytes[|bytes|..] == [];
    while carry > 0
      invariant product + Carried(carry) == MulAdd(bytes, digit)
    {
      product := product + [carry % 256];
      carry := carry / 256;
    }
  }

  // The bytes of a text, and of the text with one more character.
  ghost predicate Holds(bytes: Digits, text: string) {
    Alphabetic(text) && InBase(bytes, 256) && Minimal(bytes) && ValLE(bytes) == Val(Read(text), 58)
  }

  lemma {:induction false} OneMoreCharacter(text: string, c: char, bytes: Digits)
    requires Holds(bytes, text) && Digit(c).Some?
    ensures Holds(MulAdd(bytes, Digit(c).value), text + [c])
  {
    MulAddFacts(bytes, Digit(c).value);
    MulAddMinimal(bytes, Digit(c).value);
    assert Read(text + [c]) == Read(text) + [Digit(c).value];
    assert Read(text + [c])[..|text|] == Read(text);
  }

  /** The decoder; a character outside the alphabet throws, and the empty text gives one zero byte. */
  method DecodeBase58(value: string) returns (r: Option<Digits>)
    ensures r.Some? <==> Alphabetic(value)
    ensures r.Some? && value != "" ==> Decodes(value, r.value)
    ensures value == "" ==> r == Some([0])
  {
    var bytes: Digits := [0];
    for n := 0 to |value|
      invariant Holds(bytes, value[..n])
    {
      var digit := Digit(value[n]);
      assert value[..n + 1] == value[..n] + [value[n]];
      if digit.None? {
        return None;
      }
      OneMoreCharacter(value[..n], value[n], bytes);
      bytes := MulAddInPlace(bytes, digit.value);
    }
    assert value[..|value|] == value;
    ghost var number := bytes;
    var index := 0;
    while index < |value| && value[index] == '1' && index < |value| - 1
      invariant bytes == number + Zeros(index) && (index > 0 ==> index < |value|)
      invariant forall i | 0 <= i < index :: value[i] == '1'
    {
      assert Zeros(index) + [0] == Zeros(index + 1);
      bytes := bytes + [0];
      index := index + 1;
    }
    ReversedZeros(number, index);
    if value != "" {
      ReversedDecodes(value, number, index);
    } else {
      ZeroNumber(number);
      assert Zeros(0) + [0] == [0];
    }
    r := Some(Reversed(bytes));
  }

  // The bytes, with as many zeros as there are leading '1's before the last character.
  lemma {:induction false} ReversedDecodes(value: string, number: Digits, k: nat)
    requires value != "" && Alphabetic(value) && InBase(number, 256) && Minimal(number)
    requires ValLE(number) == Val(Read(value), 58)
    requires k < |value| && (forall i | 0 <= i < k :: value[i] == '1') && (value[k] == '1' ==> k == |value| - 1)
    ensures Decodes(value, Zeros(k) + Reversed(number))
  {
    var d, r := Read(value), Reversed(number);
    ReversedValue(number);
    ZerosAddNothing(k, r, 256);
    ZeroIsOne(value);
    SameLeadingZeros(d, r, number, k);
  }

  lemma ZeroIsOne(value: string)
    requires Alphabetic(value)
    ensures forall i | 0 <= i < |value| :: Read(value)[i] == 0 <==> value[i] == '1'
  {
  }

  lemma {:induction false} ZerosAddNothing(k: nat, r: Digits, base: nat)
    ensures Val(Zeros(k) + r, base) == Val(r, base)
    ensures base > 0 && InBase(r, base) ==> InBase(Zeros(k) + r, base)
  {
    ValConcat(Zeros(k), r, base);
    ValZeros(k, base);
  }

  lemma {:induction false} SameLeadingZeros(d: Digits, r: Digits, number: Digits, k: nat)
    requires InBase(d, 58) && k < |d| && (forall i | 0 <= i < k :: d[i] == 0) && (d[k] == 0 ==> k == |d| - 1)
    requires Minimal(number) && r == Reversed(number) && ValLE(number) == Val(d, 58)
    ensures LeadingZeros(Zeros(k) + r) == LeadingZeros(d)
  {
    assert d == Zeros(k) + d[k..];
    ValConcat(Zeros(k), d[k..], 58);
    ValZeros(k, 58);
    if d[k] != 0 {
      ValAtLeast(d[k..], 58);
      PowPositive(58, |d| - k - 1);
      CountZeros(k, d[k..]);
      ReversedValue(number);
      CountZeros(k, r);
    } else {
      assert [0][..0] == [] && d[k..] == [0];
      ZeroNumber(number);
      AllZero(k + 1);
      assert d == Zeros(k + 1) && Zeros(k) + r == Zeros(k + 1);
    }
  }

  lemma {:induction false} AllZero(k: nat)
    ensures LeadingZeros(Zeros(k)) == k
  {
    if k > 0 {
      assert Zeros(k)[1..] == Zeros(k - 1);
      AllZero(k - 1);
    }
  }

  lemma {:induction false} ZeroNumber(number: Digits)
    requires Minimal(number) && ValLE(number) == 0
    ensures Reversed(number) == [0]
  {
    if number != [0] {
      PositiveLE(number);
    }
  }
}
