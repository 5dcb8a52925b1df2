/**
 Unpadded lower-case base 32 (`decodeBase32`, web/src/lib/ipfs-cid.ts:41-61; sections 3.5 and 6
 of RFC 4648): bits are buffered five at a time and leave eight at a time. The decoder accepts
 exactly the canonical encodings.
 */
module Base32 {
  import opened Prelude
  import opened Arithmetic
  import opened Positional

  // 'a' to 'z', then '2' to '7'.
  function Digit(c: char): (d: Option<nat>)
    ensures d.Some? ==> d.value < 32
  {
    if 'a' <= c <= 'z' then Some((c - 'a') as nat)
    else if '2' <= c <= '7' then Some((c - '2') as nat + 26)
    else None
  }

  function Symbol(d: nat): char
    requires d < 32
  {
    if d < 26 then 'a' + d as char else '2' + (d - 26) as char
  }

  lemma DigitOfSymbol(d: nat)
    requires d < 32
    ensures Digit(Symbol(d)) == Some(d)
  {
  }

  lemma SymbolOfDigit(c: char)
    requires Digit(c).Some?
    ensures Symbol(Digit(c).value) == c
  {
  }

  predicate Alphabetic(s: string) { forall i | 0 <= i < |s| :: Digit(s[i]).Some? }

  function Read(s: string): (d: Digits)
    requires Alphabetic(s)
    ensures |d| == |s| && InBase(d, 32)
  {
    seq(|s|, i requires 0 <= i < |s| => Digit(s[i]).value)
  }

  function Write(d: Digits): (s: string)
    requires InBase(d, 32)
    ensures |s| == |d|
  {
    seq(|d|, i requires 0 <= i < |d| => Symbol(d[i]))
  }

  lemma ReadWrite(d: Digits)
    requires InBase(d, 32)
    ensures Alphabetic(Write(d)) && Read(Write(d)) == d
  {
    forall i | 0 <= i < |d| ensures Digit(Write(d)[i]) == Some(d[i]) {
      DigitOfSymbol(d[i]);
    }
  }

  lemma WriteRead(s: string)
    requires Alphabetic(s)
    ensures Write(Read(s)) == s
  {
    forall i | 0 <= i < |s| ensures Write(Read(s))[i] == s[i] {
      SymbolOfDigit(s[i]);
    }
  }

  // ---------------------------------------------------------------- the encoding

  // The characters that hold `m` bytes: the fewest with at least 8 * m bits.
  function Characters(m: nat): (n: nat)
    ensures 8 * m <= 5 * n < 8 * m + 5
  {
    if m == 0 then 0
    else
      var n := Characters(m - 1);
      if 8 * m <= 5 * (n + 1) then n + 1 else n + 2
  }

  // The zero bits after the last byte.
  function PadBits(m: nat): (r: nat)
    ensures r < 5
  {
    5 * Characters(m) - 8 * m
  }

  lemma {:induction false} PowOfTwo(n: nat)
    ensures Pow(2, 8 * n) == Pow(256, n) && Pow(2, 5 * n) == Pow(32, n)
  {
    if n > 0 {
      PowOfTwo(n - 1);
      PowAdd(2, 8 * (n - 1), 8);
      PowAdd(2, 5 * (n - 1), 5);
      SmallPowers();
    }
  }

  lemma SmallPowers()
    ensures Pow(2, 1) == 2 && Pow(2, 5) == 32 && Pow(2, 8) == 256
  {
    assert Pow(2, 1) == 2 && Pow(2, 2) == 4 && Pow(2, 3) == 8 && Pow(2, 4) == 16;
    assert Pow(2, 5) == 32 && Pow(2, 6) == 64 && Pow(2, 7) == 128;
  }

  // The value of the bytes with the zero bits that fill the last character.
  function Padded(bytes: Digits): nat { Val(bytes, 256) * Pow(2, PadBits(|bytes|)) }

  lemma {:induction false} PaddedFits(bytes: Digits)
    requires InBase(bytes, 256)
    ensures Padded(bytes) < Pow(32, Characters(|bytes|))
  {
    var m, r := |bytes|, PadBits(|bytes|);
    ValBound(bytes, 256);
    PowOfTwo(m);
    PowOfTwo(Characters(m));
    assert 5 * Characters(m) == 8 * m + r;
    PowAdd(2, 8 * m, r);
    PowPositive(2, r);
    Scaled(Val(bytes, 256), Pow(256, m), Pow(2, r));
  }

  lemma Scaled(a: nat, b: nat, c: nat)
    requires a < b && c > 0
    ensures a * c < b * c
  {
    Times(a + 1, b, c);
  }

  function EncodedDigits(bytes: Digits): (d: Digits)
    requires InBase(bytes, 256)
    ensures InBase(d, 32) && |d| == Characters(|bytes|) && Val(d, 32) == Padded(bytes)
  {
    PaddedFits(bytes);
    FixedDigitsValue(Padded(bytes), 32, Characters(|bytes|));
    FixedDigits(Padded(bytes), 32, Characters(|bytes|))
  }

  function Encode(bytes: Digits): (s: string)
    requires InBase(bytes, 256)
    ensures |s| == Characters(|bytes|)
  {
    Write(EncodedDigits(bytes))
  }

  // ---------------------------------------------------------------- the decoder

  // The bits read so far are the bytes followed by the buffer.
  ghost predicate Buffered(digits: Digits, bytes: Digits, buffer: nat, bits: nat) {
    && InBase(bytes, 256) && buffer < Pow(2, bits) && 5 * |digits| == 8 * |bytes| + bits
    && Val(digits, 32) == Val(bytes, 256) * Pow(2, bits) + buffer
  }

  lemma DigitTaken(total: nat, v: nat, p: nat, buffer: nat, digit: nat)
    requires total == v * p + buffer && buffer < p && digit < 32
    ensures total * 32 + digit == v * (p * 32) + (buffer * 32 + digit) && buffer * 32 + digit < p * 32
  {
    assert (v * p + buffer) * 32 == v * (p * 32) + buffer * 32;
  }

  lemma TakeDigit(digits: Digits, digit: nat, bytes: Digits, buffer: nat, bits: nat)
    requires Buffered(digits, bytes, buffer, bits) && digit < 32
    ensures Buffered(digits + [digit], bytes, buffer * 32 + digit, bits + 5)
  {
    ValAppend(digits, digit, 32);
    PowAdd(2, bits, 5);
    SmallPowers();
    DigitTaken(Val(digits, 32), Val(bytes, 256), Pow(2, bits), buffer, digit);
  }

  lemma ByteGiven(total: nat, v: nat, p: nat, buffer: nat, byte: nat, rest: nat)
    requires total == v * (256 * p) + buffer && buffer < 256 * p && buffer == byte * p + rest
    ensures byte < 256 && total == (v * 256 + byte) * p + rest
  {
    if byte >= 256 {
      Times(256, byte, p);
    }
    assert v * (256 * p) == v * 256 * p;
  }

  // Eight bits leave the buffer: its quotient by what stays below them, and the remainder stays.
  lemma {:induction false} GiveByte(digits: Digits, bytes: Digits, buffer: nat, bits: nat, byte: nat, rest: nat)
    requires Buffered(digits, bytes, buffer, bits) && 8 <= bits
    requires buffer == byte * Pow(2, bits - 8) + rest && rest < Pow(2, bits - 8)
    ensures byte < 256 && Buffered(digits, bytes + [byte], rest, bits - 8)
  {
    PowAdd(2, 8, bits - 8);
    SmallPowers();
    ByteGiven(Val(digits, 32), Val(bytes, 256), Pow(2, bits - 8), buffer, byte, rest);
    ValAppend(bytes, byte, 256);
  }

  // What the two final checks decide.
  lemma {:induction false} CanonicalIff(s: string, bytes: Digits, buffer: nat, bits: nat)
    requires Alphabetic(s) && Buffered(Read(s), bytes, buffer, bits)
    requires buffer == 0 && |s| == Characters(|bytes|)
    ensures s == Encode(bytes)
  {
    FixedUnique(Read(s), EncodedDigits(bytes), 32);
    WriteRead(s);
  }

  lemma {:induction false} SameBytes(s: string, bytes: Digits, buffer: nat, bits: nat, other: Digits)
    requires Alphabetic(s) && Buffered(Read(s), bytes, buffer, bits) && bits < 8
    requires InBase(other, 256) && s == Encode(other)
    ensures other == bytes && buffer == 0 && |s| == Characters(|bytes|)
  {
    ReadWrite(EncodedDigits(other));
    assert |bytes| == |other| && bits == PadBits(|other|);
    PowPositive(2, bits);
    DivModUnique(Val(bytes, 256), buffer, Val(other, 256), 0, Pow(2, bits));
    FixedUnique(bytes, other, 256);
  }

  // One character: five bits in, and eight out when there are enough.
  method Push(ghost digits: Digits, digit: nat, bytes: Digits, buffer: nat, bits: nat)
    returns (bytes': Digits, buffer': nat, bits': nat)
    requires Buffered(digits, bytes, buffer, bits) && bits < 8 && digit < 32
    ensures Buffered(digits + [digit], bytes', buffer', bits') && bits' < 8
  {
    TakeDigit(digits, digit, bytes, buffer, bits);
    bytes', buffer', bits' := bytes, buffer * 32 + digit, bits + 5;
    while bits' >= 8
      invariant Buffered(digits + [digit], bytes', buffer', bits') && bits' < 13
    {
      PowPositive(2, bits' - 8);
      var byte, rest := buffer' / Pow(2, bits' - 8), buffer' % Pow(2, bits' - 8);
      DivMod(buffer', Pow(2, bits' - 8));
      GiveByte(digits + [digit], bytes', buffer', bits', byte, rest);
      bits', bytes', buffer' := bits' - 8, bytes' + [byte], rest;
    }
  }

  lemma NothingRead()
    ensures Read("") == [] && Buffered([], [], 0, 0)
  {
    assert Pow(2, 0) == 1;
  }

  method ReadBits(value: string) returns (ok: bool, bytes: Digits, buffer: nat, bits: nat)
    ensures ok <==> Alphabetic(value)
    ensures ok ==> Buffered(Read(value), bytes, buffer, bits) && bits < 8
  {
    bytes, buffer, bits := [], 0, 0;
    NothingRead();
    for n := 0 to |value|
      invariant Alphabetic(value[..n]) && Buffered(Read(value[..n]), bytes, buffer, bits) && bits < 8
    {
      if Digit(value[n]).None? {
        return false, [], 0, 0;
      }
      ReadNext(value, n);
      bytes, buffer, bits := Push(Read(value[..n]), Digit(value[n]).value, bytes, buffer, bits);
    }
    assert value[..|value|] == value;
    ok := true;
  }

  /** The decoder accepts exactly the canonical encodings and gives back what was encoded. */
  method DecodeBase32(value: string) returns (r: Option<Digits>)
    ensures r.Some? ==> InBase(r.value, 256) && value == Encode(r.value)
    ensures forall bytes | InBase(bytes, 256) && value == Encode(bytes) :: r == Some(bytes)
  {
    var ok, bytes, buffer, bits := ReadBits(value);
    forall other | InBase(other, 256) && value == Encode(other)
      ensures ok && other == bytes && buffer == 0 && |value| == Characters(|bytes|)
    {
      ReadWrite(EncodedDigits(other));
      SameBytes(value, bytes, buffer, bits, other);
    }
    if !ok || (bits > 0 && buffer != 0) || |value| != Characters(|bytes|) { return None; }
    CanonicalIff(value, bytes, buffer, bits);
    r := Some(bytes);
  }

  lemma ReadNext(value: string, n: nat)
    requires n < |value| && Alphabetic(value[..n]) && Digit(value[n]).Some?
    ensures Alphabetic(value[..n + 1]) && Read(value[..n + 1]) == Read(value[..n]) + [Digit(value[n]).value]
  {
    assert value[..n + 1] == value[..n] + [value[n]];
  }
}
