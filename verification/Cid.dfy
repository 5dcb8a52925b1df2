/** Which texts are IPFS content identifiers (web/src/lib/ipfs-cid.ts:3-17, 63-94). */
module Cid {
  import opened Prelude
  import opened Arithmetic
  import opened Positional
  import Base58
  import Base32

  // ---------------------------------------------------------------- varints

  // The shortest LEB128 form of `v`.
  function Leb(v: nat): (b: Digits)
    ensures b != []
  {
    if v < 128 then [v] else [128 + v % 128] + Leb(v / 128)
  }

  // The varint at `i`, of at most `k` bytes; `first` allows a single zero byte.
  function Lev(b: Digits, i: nat, k: nat, first: bool): Option<(nat, nat)>
    decreases k, |b|
  {
    if i >= |b| || k == 0 then None
    else if b[i] < 128 then (if !first && b[i] == 0 then None else Some((b[i], i + 1)))
    else
      var rest := Lev(b, i + 1, k - 1, false);
      if rest.None? then None else Some((b[i] % 128 + 128 * rest.value.0, rest.value.1))
  }

  lemma LebByte(byte: nat, rest: nat)
    requires 128 <= byte < 256 && rest > 0
    ensures Leb(byte % 128 + 128 * rest) == [byte] + Leb(rest)
  {
    var v := byte % 128 + 128 * rest;
    assert v % 128 == byte % 128 && v / 128 == rest;
  }

  // What is read is the shortest form of the value that is read.
  lemma {:induction false} LevIsLeb(b: Digits, i: nat, k: nat, first: bool)
    requires InBase(b, 256)
    ensures Lev(b, i, k, first).Some? ==>
              var (v, next) := Lev(b, i, k, first).value;
              i < next <= |b| && next - i <= k && b[i..next] == Leb(v) && (first || v > 0)
    decreases k
  {
    if i < |b| && k > 0 {
      if b[i] < 128 {
        assert b[i..i + 1] == [b[i]];
      } else {
        LevIsLeb(b, i + 1, k - 1, false);
        var rest := Lev(b, i + 1, k - 1, false);
        if rest.Some? {
          LebByte(b[i], rest.value.0);
          assert b[i..rest.value.1] == [b[i]] + b[i + 1..rest.value.1];
        }
      }
    }
  }

  // The shortest form of a value is read as that value, wherever it stands.
  lemma {:induction false} LebIsLev(b: Digits, i: nat, k: nat, first: bool, v: nat, next: nat)
    requires i < next <= |b| && b[i..next] == Leb(v) && next - i <= k && (first || v > 0)
    ensures Lev(b, i, k, first) == Some((v, next))
    decreases k
  {
    assert b[i] == b[i..next][0];
    if v >= 128 {
      assert b[i + 1..next] == b[i..next][1..] == Leb(v / 128);
      LebIsLev(b, i + 1, k - 1, false, v / 128, next);
    }
  }

  lemma {:induction false} LebBytes(v: nat)
    ensures InBase(Leb(v), 256)
    decreases v
  {
    if v >= 128 {
      LebBytes(v / 128);
    }
  }

  lemma {:induction false} LebLength(v: nat, k: nat)
    requires k >= 1 && v < Pow(128, k)
    ensures |Leb(v)| <= k
    decreases k
  {
    if k == 1 {
      assert Pow(128, 1) == 128 * Pow(128, 0);
    } else if v >= 128 {
      assert v / 128 < Pow(128, k - 1);
      LebLength(v / 128, k - 1);
    }
  }

  lemma {:induction false} SafeFitsEight(v: nat)
    requires v <= MAX_SAFE_INTEGER
    ensures |Leb(v)| <= 8
  {
    assert Pow(128, 1) == 128 && Pow(128, 2) == 16384 && Pow(128, 3) == 2097152 && Pow(128, 4) == 268435456;
    assert Pow(128, 5) == 34359738368 && Pow(128, 6) == 4398046511104 && Pow(128, 7) == 562949953421312;
    assert Pow(128, 8) == 72057594037927936;
    LebLength(v, 8);
  }

  // The number that starts with the low part `value` and goes on with what is read.
  function Shifted(read: Option<(nat, nat)>, value: nat, multiplier: nat): Option<(nat, nat)> {
    if read.None? then None else Some((value + multiplier * read.value.0, read.value.1))
  }

  function Safe(read: Option<(nat, nat)>): Option<(nat, nat)> {
    if read.Some? && read.value.0 <= MAX_SAFE_INTEGER then read else None
  }

  lemma OneMoreByte(b: Digits, index: nat, k: nat, first: bool, value: nat, multiplier: nat)
    requires index < |b| && k > 0 && InBase(b, 256)
    ensures b[index] < 128 || Shifted(Lev(b, index, k, first), value, multiplier)
                           == Shifted(Lev(b, index + 1, k - 1, false),
                                      value + b[index] % 128 * multiplier, multiplier * 128)
    ensures value + b[index] % 128 * multiplier > MAX_SAFE_INTEGER ==>
        Safe(Shifted(Lev(b, index, k, first), value, multiplier)).None?
  {
    var low, rest := b[index] % 128, Lev(b, index + 1, k - 1, false);
    if b[index] >= 128 && rest.Some? {
      assert value + multiplier * (low + 128 * rest.value.0)
        == value + low * multiplier + multiplier * 128 * rest.value.0;
    }
  }

  lemma {:induction false} LastByte(b: Digits, index: nat, k: nat, first: bool)
    ensures index >= |b| || k == 0 ==> Lev(b, index, k, first).None?
    ensures index < |b| && k > 0 && b[index] < 128 ==>
              Lev(b, index, k, first) == if !first && b[index] == 0 then None else Some((b[index], index + 1))
  {
  }

  // A varint of at most eight bytes that is a safe integer.
  function ReadAt(b: Digits, start: nat): Option<(nat, nat)> { Safe(Lev(b, start, 8, true)) }

  // After the bytes up to `index`, the varint is what is read from there, on top of `value`.
  ghost predicate Reading(b: Digits, start: nat, index: nat, k: nat, value: nat, multiplier: nat) {
    start <= index && ReadAt(b, start) == Safe(Shifted(Lev(b, index, k, index == start), value, multiplier))
  }

  lemma Stop(b: Digits, start: nat, index: nat, k: nat, value: nat, multiplier: nat)
    requires Reading(b, start, index, k, value, multiplier) && (index >= |b| || k == 0)
    ensures ReadAt(b, start).None?
  {
    LastByte(b, index, k, index == start);
  }

  lemma Continue(b: Digits, start: nat, index: nat, k: nat, value: nat, multiplier: nat, low: nat)
    requires InBase(b, 256) && Reading(b, start, index, k, value, multiplier) && index < |b| && k > 0
    requires low == value + b[index] % 128 * multiplier
    ensures low > MAX_SAFE_INTEGER ==> ReadAt(b, start).None?
    ensures low <= MAX_SAFE_INTEGER && b[index] >= 128 ==> Reading(b, start, index + 1, k - 1, low, multiplier * 128)
    ensures low <= MAX_SAFE_INTEGER && b[index] < 128 ==>
              ReadAt(b, start) == if index > start && b[index] == 0 then None else Some((low, index + 1))
  {
    OneMoreByte(b, index, k, index == start, value, multiplier);
    LastByte(b, index, k, index == start);
  }

  method ReadVarint(bytes: Digits, start: nat) returns (r: Option<(nat, nat)>)
    requires InBase(bytes, 256)
    ensures r == ReadAt(bytes, start)
  {
    var value: nat := 0;
    var multiplier: nat := 1;
    var index := start;
    StartReading(bytes, start);
    while index < |bytes| && index - start < 8
      invariant start <= index <= start + 8
      invariant Reading(bytes, start, index, 8 - (index - start), value, multiplier)
    {
      var byte := bytes[index];
      Continue(bytes, start, index, 8 - (index - start), value, multiplier, value + byte % 128 * multiplier);
      value := value + byte % 128 * multiplier;
      if value > MAX_SAFE_INTEGER { return None; }
      if byte < 128 {
        if index > start && byte == 0 { return None; }
        return Some((value, index + 1));
      }
      multiplier := multiplier * 128;
      index := index + 1;
    }
    Stop(bytes, start, index, 8 - (index - start), value, multiplier);
    r := None;
  }

  lemma StartReading(b: Digits, start: nat)
    ensures Reading(b, start, start, 8, 0, 1)
  {
  }

  /** The reader accepts exactly the shortest forms of values up to 2^53 - 1, where they stand. */
  lemma {:induction false} VarintExact(bytes: Digits, start: nat, v: nat, next: nat)
    requires InBase(bytes, 256)
    ensures ReadAt(bytes, start) == Some((v, next))
       <==> start < next <= |bytes| && v <= MAX_SAFE_INTEGER && bytes[start..next] == Leb(v)
  {
    LevIsLeb(bytes, start, 8, true);
    if start < next <= |bytes| && v <= MAX_SAFE_INTEGER && bytes[start..next] == Leb(v) {
      SafeFitsEight(v);
      LebIsLev(bytes, start, 8, true, v, next);
    }
  }

  // ---------------------------------------------------------------- version 1

  // Version, codec, hash function and digest, each number in its shortest form.
  function Built(codec: nat, hash: nat, digest: Digits): Digits {
    Leb(1) + (Leb(codec) + Leb(hash) + Leb(|digest|) + digest)
  }

  predicate Fields(codec: nat, hash: nat, digest: Digits) {
    && 0 < codec <= MAX_SAFE_INTEGER && 0 < hash <= MAX_SAFE_INTEGER && 0 < |digest| <= 128 && InBase(digest, 256)
  }

  ghost predicate IsV1(bytes: Digits) {
    exists codec, hash, digest :: Fields(codec, hash, digest) && bytes == Built(codec, hash, digest)
  }

  lemma MiddlePart(a: Digits, m: Digits, c: Digits)
    ensures (a + m + c)[|a|..|a| + |m|] == m
  {
  }

  // A number in its shortest form is read wherever it stands.
  lemma {:induction false} Stands(b: Digits, before: Digits, leb: Digits, v: nat, after: Digits, p: nat, next: nat)
    requires b == before + leb + after && leb == Leb(v) && InBase(b, 256) && v <= MAX_SAFE_INTEGER
    requires p == |before| && next == p + |leb|
    ensures ReadsAs(b, p, v, next)
  {
    MiddlePart(before, leb, after);
    VarintExact(b, p, v, next);
  }

  // Where the four numbers of a built identifier stand.
  ghost predicate ReadsAs(b: Digits, p: nat, v: nat, next: nat) { ReadAt(b, p) == Some((v, next)) }

  lemma Regroup(a: Digits, b: Digits, c: Digits, d: Digits, e: Digits)
    ensures a + (b + c + d + e) == a + b + (c + d + e)
    ensures a + (b + c + d + e) == (a + b) + c + (d + e)
    ensures a + (b + c + d + e) == (a + b + c) + d + e
    ensures (a + (b + c + d + e))[|a| + |b| + |c| + |d|..] == e
  {
  }

  // The four numbers, of these widths, and the digest are read one after another.
  ghost predicate ReadsParts(b: Digits, o: nat, c: nat, h: nat, n: nat, codec: nat, hash: nat, digest: Digits) {
    && ReadsAs(b, 0, 1, o) && ReadsAs(b, o, codec, o + c) && ReadsAs(b, o + c, hash, o + c + h)
    && ReadsAs(b, o + c + h, |digest|, o + c + h + n) && |b| == o + c + h + n + |digest| && b[o + c + h + n..] == digest
  }

  lemma {:induction false} BuiltReads(codec: nat, hash: nat, digest: Digits)
    requires Fields(codec, hash, digest)
    ensures InBase(Built(codec, hash, digest), 256)
    ensures ReadsParts(Built(codec, hash, digest), |Leb(1)|, |Leb(codec)|, |Leb(hash)|, |Leb(|digest|)|, codec, hash,
        digest)
  {
    BuiltBytes(codec, hash, digest);
    VersionRead(Built(codec, hash, digest), Leb(codec) + Leb(hash) + Leb(|digest|) + digest);
    PartsRead(Built(codec, hash, digest), Leb(1), Leb(codec), codec, Leb(hash), hash, Leb(|digest|), digest);
  }

  lemma VersionRead(b: Digits, rest: Digits)
    requires InBase(b, 256) && b == Leb(1) + rest
    ensures ReadsAs(b, 0, 1, |Leb(1)|)
  {
    assert b == [] + Leb(1) + rest;
    Stands(b, [], Leb(1), 1, rest, 0, |Leb(1)|);
  }

  lemma {:induction false} PartsRead(b: Digits, o: Digits, c: Digits, codec: nat, h: Digits, hash: nat, n: Digits,
      digest: Digits)
    requires InBase(b, 256) && b == o + (c + h + n + digest) && codec <= MAX_SAFE_INTEGER && hash <= MAX_SAFE_INTEGER
    requires ReadsAs(b, 0, 1, |o|) && c == Leb(codec) && h == Leb(hash) && n == Leb(|digest|) && |digest| <= 128
    ensures ReadsParts(b, |o|, |c|, |h|, |n|, codec, hash, digest)
  {
    Regroup(o, c, h, n, digest);
    Stands(b, o, c, codec, h + n + digest, |o|, |o| + |c|);
    Stands(b, o + c, h, hash, n + digest, |o| + |c|, |o| + |c| + |h|);
    Stands(b, o + c + h, n, |digest|, digest, |o| + |c| + |h|, |o| + |c| + |h| + |n|);
  }

  lemma BuiltBytes(codec: nat, hash: nat, digest: Digits)
    requires Fields(codec, hash, digest)
    ensures InBase(Built(codec, hash, digest), 256)
  {
    LebBytes(codec);
    LebBytes(hash);
    LebBytes(|digest|);
  }

  /** Accepted bytes have one reading, and it rebuilds them byte for byte. */
  lemma UniqueReading(codec: nat, hash: nat, digest: Digits, codec': nat, hash': nat, digest': Digits)
    requires Fields(codec, hash, digest) && Fields(codec', hash', digest')
    requires Built(codec, hash, digest) == Built(codec', hash', digest')
    ensures codec == codec' && hash == hash' && digest == digest'
  {
    BuiltReads(codec, hash, digest);
    BuiltReads(codec', hash', digest');
  }

  method IsCidV1Bytes(bytes: Digits) returns (ok: bool)
    requires InBase(bytes, 256)
    ensures ok <==> IsV1(bytes)
  {
    forall codec, hash, digest | Fields(codec, hash, digest) && bytes == Built(codec, hash, digest)
      ensures Parsed(bytes)
    {
      BuiltReads(codec, hash, digest);
    }
    var version := ReadVarint(bytes, 0);
    if version.None? || version.value.0 != 1 { return false; }
    var codec := ReadVarint(bytes, version.value.1);
    if codec.None? || codec.value.0 <= 0 { return false; }
    var hash := ReadVarint(bytes, codec.value.1);
    if hash.None? || hash.value.0 <= 0 { return false; }
    var length := ReadVarint(bytes, hash.value.1);
    if length.None? || length.value.0 <= 0 || length.value.0 > 128 { return false; }
    ok := length.value.1 + length.value.0 == |bytes|;
    if ok {
      ParsedIsBuilt(bytes);
    }
  }

  // The four reads succeed and the digest fills the rest.
  predicate Parsed(bytes: Digits) {
    var version := ReadAt(bytes, 0);
    && version.Some? && version.value.0 == 1
    && var codec := ReadAt(bytes, version.value.1);
       && codec.Some? && codec.value.0 > 0
       && var hash := ReadAt(bytes, codec.value.1);
          && hash.Some? && hash.value.0 > 0
          && var length := ReadAt(bytes, hash.value.1);
             length.Some? && 0 < length.value.0 <= 128 && length.value.1 + length.value.0 == |bytes|
  }

  lemma ReadStands(bytes: Digits, start: nat)
    requires InBase(bytes, 256) && ReadAt(bytes, start).Some?
    ensures var (v, next) := ReadAt(bytes, start).value;
            start < next <= |bytes| && v <= MAX_SAFE_INTEGER && bytes[start..next] == Leb(v)
  {
    var read := ReadAt(bytes, start).value;
    VarintExact(bytes, start, read.0, read.1);
  }

  lemma FiveParts(bytes: Digits, a: nat, b: nat, c: nat, d: nat)
    requires a <= b <= c <= d <= |bytes|
    ensures bytes == bytes[0..a] + bytes[a..b] + bytes[b..c] + bytes[c..d] + bytes[d..]
  {
  }

  lemma {:induction false} PartsBuilt(bytes: Digits, a: nat, b: nat, c: nat, d: nat, codec: nat, hash: nat)
    requires a <= b <= c <= d <= |bytes| && Fields(codec, hash, bytes[d..])
    requires bytes[0..a] == Leb(1) && bytes[a..b] == Leb(codec) && bytes[b..c] == Leb(hash)
    requires bytes[c..d] == Leb(|bytes[d..]|)
    ensures IsV1(bytes)
  {
    FiveParts(bytes, a, b, c, d);
    assert bytes == Built(codec, hash, bytes[d..]);
  }

  lemma ParsedIsBuilt(bytes: Digits)
    requires InBase(bytes, 256) && Parsed(bytes)
    ensures IsV1(bytes)
  {
    var version := ReadAt(bytes, 0).value;
    ReadStands(bytes, 0);
    var codec := ReadAt(bytes, version.1).value;
    ReadStands(bytes, version.1);
    var hash := ReadAt(bytes, codec.1).value;
    ReadStands(bytes, codec.1);
    var length := ReadAt(bytes, hash.1).value;
    ReadStands(bytes, hash.1);
    PartsBuilt(bytes, version.1, codec.1, hash.1, length.1, codec.0, hash.0);
  }

  // ---------------------------------------------------------------- version 0

  // A sha2-256 multihash.
  predicate V0Bytes(bytes: Digits) { |bytes| == 34 && bytes[0] == 0x12 && bytes[1] == 0x20 }

  predicate V0Pattern(s: string) { |s| == 46 && s[0] == 'Q' && s[1] == 'm' && Base58.Alphabetic(s) }

  predicate V1Pattern(s: string) { 21 <= |s| <= 121 && s[0] == 'b' && Base32.Alphabetic(s[1..]) }

  lemma Powers()
    ensures Pow(58, 44) == 389790918707373377135528568990913592653094657612049369038476873218241589149696
    ensures Pow(256, 32) == 0x1_0000000000000000000000000000000000000000000000000000000000000000
  {
    assert Pow(58, 11) == 24986644000165537792 by { Pow11(58); }
    PowAdd(58, 11, 11);
    PowAdd(58, 22, 22);
    assert Pow(256, 8) == 0x1_0000000000000000 by { Pow8(256); }
    PowAdd(256, 8, 8);
    PowAdd(256, 16, 16);
  }

  lemma {:induction false} Pow8(b: nat)
    ensures Pow(b, 8) == b * b * b * b * b * b * b * b
  {
    assert Pow(b, 1) == b && Pow(b, 2) == b * b && Pow(b, 3) == b * b * b && Pow(b, 4) == b * b * b * b;
    assert Pow(b, 5) == b * b * b * b * b && Pow(b, 6) == b * b * b * b * b * b
      && Pow(b, 7) == b * b * b * b * b * b * b;
  }

  lemma {:induction false} Pow11(b: nat)
    ensures Pow(b, 11) == b * b * b * b * b * b * b * b * b * b * b
  {
    Pow8(b);
    assert Pow(b, 9) == Pow(b, 8) * b && Pow(b, 10) == Pow(b, 9) * b && Pow(b, 11) == Pow(b, 10) * b;
  }

  lemma {:induction false} TwoDigits(a: nat, b: nat, base: nat)
    ensures Val([a, b], base) == a * base + b
  {
    assert [a, b][..1] == [a] && [a][..0] == [];
    assert Val([a], base) == Val([a][..0], base) * base + a;
  }

  // The value of every sha2-256 multihash starts with the base 58 digits 23 and 44.
  lemma {:induction false} MultihashValue(digest: Digits)
    requires |digest| == 32 && InBase(digest, 256)
    ensures 1378 * Pow(58, 44) <= Val([0x12, 0x20] + digest, 256) < 1379 * Pow(58, 44)
  {
    ValConcat([0x12, 0x20], digest, 256);
    TwoDigits(0x12, 0x20, 256);
    ValBound(digest, 256);
    Powers();
  }

  lemma {:induction false} FortySixDigits(d: Digits, v: nat)
    requires InBase(d, 58) && Val(d, 58) == v && d != [] && d[0] != 0
    requires 1378 * Pow(58, 44) <= v < 1379 * Pow(58, 44)
    ensures |d| == 46
  {
    PowAdd(58, 44, 1);
    PowAdd(58, 44, 2);
    assert Pow(58, 1) == 58 && Pow(58, 2) == 3364;
    PowPositive(58, 44);
    if |d| < 46 {
      ValBound(d, 58);
      PowMonotone(58, |d|, 45);
    } else if |d| > 46 {
      ValAtLeast(d, 58);
      PowMonotone(58, 46, |d| - 1);
    }
  }

  lemma {:induction false} TopDigits(d: Digits)
    requires InBase(d, 58) && |d| == 46 && 1378 * Pow(58, 44) <= Val(d, 58) < 1379 * Pow(58, 44)
    ensures d[0] == 23 && d[1] == 44
  {
    var y := Val(d[2..], 58);
    assert d == d[..2] + d[2..] && d[..2] == [d[0], d[1]];
    ValConcat(d[..2], d[2..], 58);
    TwoDigits(d[0], d[1], 58);
    ValBound(d[2..], 58);
    Leading(d[0] * 58 + d[1], Pow(58, 44), y, 1378);
  }

  lemma Leading(t: nat, p: nat, y: nat, q: nat)
    requires y < p && q * p <= t * p + y < (q + 1) * p
    ensures t == q
  {
    if t < q {
      Times(t + 1, q, p);
    } else if t > q {
      Times(q + 1, t, p);
    }
  }

  /** Every encoded sha2-256 multihash has 46 characters and starts with "Qm". */
  lemma MultihashText(digest: Digits)
    requires |digest| == 32 && InBase(digest, 256)
    ensures V0Pattern(Base58.Encode([0x12, 0x20] + digest))
    ensures Base58.Decodes(Base58.Encode([0x12, 0x20] + digest), [0x12, 0x20] + digest)
  {
    var b := [0x12, 0x20] + digest;
    var s := Base58.Encode(b);
    Base58.EncodeRoundTrip(s, b);
    var d := Base58.Read(s);
    assert LeadingZeros(b) == 0;
    MultihashValue(digest);
    PowPositive(58, 44);
    StripZeros(d, 58);
    FortySixDigits(d, Val(b, 256));
    TopDigits(d);
    Base58.SymbolOfDigit(s[0]);
    Base58.SymbolOfDigit(s[1]);
  }

  // The pattern of version 1 holds the encodings of 20 to 120 characters.
  ghost predicate IsCid(s: string) {
    || (exists digest :: |digest| == 32 && InBase(digest, 256) && s == Base58.Encode([0x12, 0x20] + digest))
    || (exists bytes :: InBase(bytes, 256) && IsV1(bytes) && s == "b" + Base32.Encode(bytes) && 21 <= |s| <= 121)
  }

  lemma V0Splits(bytes: Digits)
    requires V0Bytes(bytes) && InBase(bytes, 256)
    ensures bytes == [0x12, 0x20] + bytes[2..] && |bytes[2..]| == 32 && InBase(bytes[2..], 256)
  {
    assert bytes[..2] == [bytes[0], bytes[1]];
  }

  lemma V0Exact(s: string, bytes: Digits)
    requires Base58.Decodes(s, bytes)
    ensures V0Bytes(bytes) <==> exists digest ::
        |digest| == 32 && InBase(digest, 256) && s == Base58.Encode([0x12, 0x20] + digest)
  {
    if V0Bytes(bytes) {
      V0Splits(bytes);
      Base58.EncodeRoundTrip(s, bytes);
      assert s == Base58.Encode([0x12, 0x20] + bytes[2..]);
    }
    if digest :| |digest| == 32 && InBase(digest, 256) && s == Base58.Encode([0x12, 0x20] + digest) {
      MultihashText(digest);
      NumeralUnique(bytes, [0x12, 0x20] + digest, 256);
    }
  }

  /**
   `isIpfsCid` accepts exactly two kinds of text: the base58btc encodings of sha2-256
   multihashes, and "b" followed by the canonical base 32 encoding, of 20 to 120 characters, of
   a version 1 identifier.
   */
  method IsIpfsCid(value: string) returns (ok: bool)
    ensures ok <==> IsCid(value)
  {
    forall digest | |digest| == 32 && InBase(digest, 256) && value == Base58.Encode([0x12, 0x20] + digest)
      ensures V0Pattern(value)
    {
      MultihashText(digest);
    }
    forall bytes | InBase(bytes, 256) && value == "b" + Base32.Encode(bytes)
      ensures value[0] == 'b' && value[1..] == Base32.Encode(bytes)
    {
    }
    if V0Pattern(value) {
      var decoded := Base58.DecodeBase58(value);
      V0Exact(value, decoded.value);
      return V0Bytes(decoded.value);
    }
    if V1Pattern(value) {
      var decoded := Base32.DecodeBase32(value[1..]);
      assert value == "b" + value[1..];
      if decoded.Some? {
        ok := IsCidV1Bytes(decoded.value);
      } else {
        ok := false;
      }
      return;
    }
    forall bytes | InBase(bytes, 256) && value == "b" + Base32.Encode(bytes) ensures Base32.Alphabetic(value[1..]) {
      Base32.ReadWrite(Base32.EncodedDigits(bytes));
    }
    ok := false;
  }
}
