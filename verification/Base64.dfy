/**
  base64_encode and base64_decode of main.cpp, with their 32-bit accumulators.  The
  encoder is proved to produce the output of section 4 of RFC 4648, the decoder to read
  six bits per alphabet character, and the two to be inverse.
  */
module Base64 {
  import opened Common

  type byte = x: int | 0 <= x < 256

  const PAD: byte := 61

  // ----- the alphabet (table 1 of RFC 4648), as character codes -----

  function Code(k: int): (c: byte)
    requires 0 <= k < 64
  {
    if k < 26 then 65 + k
    else if k < 52 then 97 + (k - 26)
    else if k < 62 then 48 + (k - 52)
    else if k == 62 then 43
    else 47
  }

  /** The index of a character in the alphabet, or -1. */
  function Index(c: byte): (k: int)
    ensures -1 <= k < 64
    ensures k >= 0 ==> Code(k) == c
  {
    if 65 <= c < 91 then c - 65
    else if 97 <= c < 123 then c - 97 + 26
    else if 48 <= c < 58 then c - 48 + 52
    else if c == 43 then 62
    else if c == 47 then 63
    else -1
  }

  lemma IndexOfCode(k: int)
    requires 0 <= k < 64
    ensures Index(Code(k)) == k && Code(k) != PAD
  {}

  /** Letters, digits, '+' and '/', in the order of table 1, and '=' for padding. */
  lemma Alphabet(k: int)
    requires 0 <= k < 64
    ensures k < 26 ==> Code(k) == 'A' as int + k
    ensures 26 <= k < 52 ==> Code(k) == 'a' as int + (k - 26)
    ensures 52 <= k < 62 ==> Code(k) == '0' as int + (k - 52)
    ensures Code(62) == '+' as int && Code(63) == '/' as int && PAD == '=' as int
  {}

  // ----- 32-bit arithmetic -----

  /** The value of an unsigned 32-bit computation. */
  function Unsigned(x: int): int { x % TWO32 }

  function Pow2(n: nat): (p: int)
    ensures p > 0
  {
    if n == 0 then 1 else 2 * Pow2(n - 1)
  }

  /** x >> n, for the arithmetic shift of a signed and the logical shift of an unsigned value. */
  function Shr(x: int, n: nat): int { x / Pow2(n) }

  // ----- section 4 of RFC 4648 -----

  /** Byte i of the input, extended by zero bits. */
  function ByteAt(s: seq<byte>, i: int): byte {
    if 0 <= i < |s| then s[i] else 0
  }

  /** The k-th group of six bits. */
  function Sextet(s: seq<byte>, k: nat): (v: int)
    ensures 0 <= v < 64
  {
    var j := 3 * (k / 4);
    match k % 4
    case 0 => ByteAt(s, j) / 4
    case 1 => ByteAt(s, j) % 4 * 16 + ByteAt(s, j + 1) / 16
    case 2 => ByteAt(s, j + 1) % 16 * 4 + ByteAt(s, j + 2) / 64
    case _ => ByteAt(s, j + 2) % 64
  }

  // ----- the groups are the next six bits -----

  /** The bits of a byte, the highest first. */
  function BitsOf(b: byte): (x: seq<int>)
    ensures |x| == 8
  {
    [b / 128 % 2, b / 64 % 2, b / 32 % 2, b / 16 % 2, b / 8 % 2, b / 4 % 2, b / 2 % 2, b % 2]
  }

  /** Bit i of a string of bytes, extended by zero bits. */
  function Bit(s: seq<byte>, i: nat): int {
    BitsOf(ByteAt(s, i / 8))[i % 8]
  }

  lemma HalvesOfHalves(b: byte)
    ensures b / 2 / 2 == b / 4 && b / 4 / 2 == b / 8 && b / 8 / 2 == b / 16
    ensures b / 16 / 2 == b / 32 && b / 32 / 2 == b / 64 && b / 64 / 2 == b / 128
  {}

  lemma Peel(h: int, q: int)
    requires q == h / 2
    ensures h == 2 * q + h % 2
  {}

  /** A byte and its high parts, by the bits x. */
  ghost predicate HasBits(b: byte, x: seq<int>) {
    && |x| == 8
    && b / 64 == 2 * x[0] + x[1]
    && b / 16 == 8 * x[0] + 4 * x[1] + 2 * x[2] + x[3]
    && b / 4 == 32 * x[0] + 16 * x[1] + 8 * x[2] + 4 * x[3] + 2 * x[4] + x[5]
    && b == 128 * x[0] + 64 * x[1] + 32 * x[2] + 16 * x[3] + 8 * x[4] + 4 * x[5] + 2 * x[6] + x[7]
  }

  lemma ByteOfBits(b: byte)
    ensures HasBits(b, BitsOf(b))
  {
    HalvesOfHalves(b);
    TwoBits(b, b / 2, b / 4);
    TwoBits(b / 4, b / 8, b / 16);
    TwoBits(b / 16, b / 32, b / 64);
    TwoBits(b / 64, b / 128, 0);
  }

  lemma TwoBits(h: int, half: int, quarter: int)
    requires half == h / 2 && quarter == half / 2
    ensures h == 4 * quarter + 2 * (half % 2) + h % 2
  {
    Peel(h, half);
    Peel(half, quarter);
  }

  /** The low parts of a byte, by its bits. */
  lemma LowBits(b: byte, x: seq<int>)
    requires HasBits(b, x)
    ensures b % 4 == 2 * x[6] + x[7]
    ensures b % 16 == 8 * x[4] + 4 * x[5] + 2 * x[6] + x[7]
    ensures b % 64 == 32 * x[2] + 16 * x[3] + 8 * x[4] + 4 * x[5] + 2 * x[6] + x[7]
  {
    assert b == 4 * (b / 4) + b % 4;
    assert b == 16 * (b / 16) + b % 16;
    assert b == 64 * (b / 64) + b % 64;
  }

  /** The bits i to i + 5, as a number. */
  function SixBits(s: seq<byte>, i: nat): int {
    32 * Bit(s, i) + 16 * Bit(s, i + 1) + 8 * Bit(s, i + 2) + 4 * Bit(s, i + 3) + 2 * Bit(s, i + 4) + Bit(s, i + 5)
  }

  lemma BitAt(s: seq<byte>, j: nat, i: nat)
    requires i < 24
    ensures Bit(s, 8 * j + i) == BitsOf(ByteAt(s, j + i / 8))[i % 8]
  {
    hide BitsOf, ByteAt;
    assert (8 * j + i) / 8 == j + i / 8 && (8 * j + i) % 8 == i % 8;
  }

  /** Six bits from bit i of byte j on. */
  lemma SixBitsAt(s: seq<byte>, j: nat, i: nat)
    requires i <= 18
    ensures SixBits(s, 8 * j + i) ==
      32 * BitsOf(ByteAt(s, j + i / 8))[i % 8] + 16 * BitsOf(ByteAt(s, j + (i + 1) / 8))[(i + 1) % 8] +
      8 * BitsOf(ByteAt(s, j + (i + 2) / 8))[(i + 2) % 8] + 4 * BitsOf(ByteAt(s, j + (i + 3) / 8))[(i + 3) % 8] +
      2 * BitsOf(ByteAt(s, j + (i + 4) / 8))[(i + 4) % 8] + BitsOf(ByteAt(s, j + (i + 5) / 8))[(i + 5) % 8]
  {
    hide BitsOf, ByteAt, Bit;
    BitAt(s, j, i);
    BitAt(s, j, i + 1);
    BitAt(s, j, i + 2);
    BitAt(s, j, i + 3);
    BitAt(s, j, i + 4);
    BitAt(s, j, i + 5);
  }

  lemma FirstOfFour(s: seq<byte>, j: nat)
    ensures ByteAt(s, j) / 4 == SixBits(s, 8 * j)
  {
    hide BitsOf, ByteAt, SixBits, Bit;
    SixBitsAt(s, j, 0);
    SplitByte(ByteAt(s, j));
  }

  lemma SecondOfFour(s: seq<byte>, j: nat)
    ensures ByteAt(s, j) % 4 * 16 + ByteAt(s, j + 1) / 16 == SixBits(s, 8 * j + 6)
  {
    hide BitsOf, ByteAt, SixBits, Bit;
    SixBitsAt(s, j, 6);
    SplitByte(ByteAt(s, j));
    SplitByte(ByteAt(s, j + 1));
  }

  lemma ThirdOfFour(s: seq<byte>, j: nat)
    ensures ByteAt(s, j + 1) % 16 * 4 + ByteAt(s, j + 2) / 64 == SixBits(s, 8 * j + 12)
  {
    hide BitsOf, ByteAt, SixBits, Bit;
    SixBitsAt(s, j, 12);
    SplitByte(ByteAt(s, j + 1));
    SplitByte(ByteAt(s, j + 2));
  }

  lemma LastOfFour(s: seq<byte>, j: nat)
    ensures ByteAt(s, j + 2) % 64 == SixBits(s, 8 * j + 18)
  {
    hide BitsOf, ByteAt, SixBits, Bit;
    SixBitsAt(s, j, 18);
    SplitByte(ByteAt(s, j + 2));
  }

  /** The k-th group is made of the bits 6 * k to 6 * k + 5 of the input. */
  lemma SextetIsSixBits(s: seq<byte>, k: nat)
    ensures Sextet(s, k) == SixBits(s, 6 * k)
  {
    hide ByteAt, SixBits, Bit, BitsOf;
    var j := 3 * (k / 4);
    assert 6 * k == 8 * j + 6 * (k % 4);
    FirstOfFour(s, j);
    SecondOfFour(s, j);
    ThirdOfFour(s, j);
    LastOfFour(s, j);
  }

  lemma SplitByte(b: byte)
    ensures var x := BitsOf(b);
      && b / 64 == 2 * x[0] + x[1] && b / 16 == 8 * x[0] + 4 * x[1] + 2 * x[2] + x[3]
      && b / 4 == 32 * x[0] + 16 * x[1] + 8 * x[2] + 4 * x[3] + 2 * x[4] + x[5]
      && b % 4 == 2 * x[6] + x[7] && b % 16 == 8 * x[4] + 4 * x[5] + 2 * x[6] + x[7]
      && b % 64 == 32 * x[2] + 16 * x[3] + 8 * x[4] + 4 * x[5] + 2 * x[6] + x[7]
  {
    ByteOfBits(b);
    LowBits(b, BitsOf(b));
    hide BitsOf;
  }

  // ----- the output of the RFC -----

  /** How many characters carry the bits of n bytes. */
  function Carriers(n: nat): nat { (8 * n + 5) / 6 }

  function Padding(n: nat): nat { (4 - Carriers(n) % 4) % 4 }

  function Rfc4648(s: seq<byte>): seq<byte> {
    seq(Carriers(|s|), k requires 0 <= k < Carriers(|s|) => Code(Sextet(s, k))) + seq(Padding(|s|), _ => PAD)
  }

  lemma CarriersByThrees(q: nat, r: nat)
    requires r < 3
    ensures Carriers(3 * q + r) == 4 * q + if r == 0 then 0 else r + 1
    ensures Padding(3 * q + r) == if r == 0 then 0 else 3 - r
  {
    assert 8 * (3 * q + r) + 5 == 6 * (4 * q) + (8 * r + 5);
  }

  /** Four characters for every three bytes begun. */
  lemma EncodedLength(s: seq<byte>)
    ensures |Rfc4648(s)| == 4 * ((|s| + 2) / 3)
  {
    var q, r := |s| / 3, |s| % 3;
    CarriersByThrees(q, r);
    assert |s| + 2 == 3 * q + (r + 2);
  }

  /** "foob" is "Zm9vYg==", one of the test vectors of section 10. */
  lemma TestVector()
    ensures Rfc4648([102, 111, 111, 98]) == [90, 109, 57, 118, 89, 103, 61, 61]
  {
    var s: seq<byte> := [102, 111, 111, 98];
    assert Sextet(s, 0) == 25 && Sextet(s, 1) == 38 && Sextet(s, 2) == 61 && Sextet(s, 3) == 47;
    assert Sextet(s, 4) == 24 && Sextet(s, 5) == 32;
    assert Carriers(4) == 6 && Padding(4) == 2;
    assert Rfc4648(s)[..6] == [90, 109, 57, 118, 89, 103];
  }

  // ----- base64_encode -----

  /** The accumulator's low 16 bits are the last two bytes read. */
  ghost predicate Accumulates(val: int, s: seq<byte>, i: nat) {
    val % 0x1_0000 == ByteAt(s, i - 2) * 256 + ByteAt(s, i - 1)
  }

  lemma Low16(x: int, q: int, r: int)
    requires x == 0x1_0000 * q + r && 0 <= r < 0x1_0000
    ensures x % 0x1_0000 == r
  {}

  lemma Low12(x: int, q: int, r: int)
    requires x == 0x1000 * q + r && 0 <= r < 0x1000
    ensures x % 0x1000 == r
  {}

  /** Wrapping at 32 bits does not touch the low 16. */
  lemma WrapKeepsLow(x: int)
    requires x >= 0
    ensures x % TWO32 % 0x1_0000 == x % 0x1_0000
  {
    var q, y := x / TWO32, x % TWO32;
    var q2, z := y / 0x1_0000, y % 0x1_0000;
    Low16(x, 0x1_0000 * q + q2, z);
  }

  lemma ShiftInByte(val: int, p: int, c: int, b: int)
    requires val >= 0 && 0 <= p < 256 && 0 <= c < 256 && 0 <= b < 256 && val % 0x1_0000 == p * 256 + c
    ensures (val * 256 + b) % 0x1_0000 == c * 256 + b
  {
    var q := val / 0x1_0000;
    assert val == 0x1_0000 * q + (p * 256 + c);
    Low16(val * 256 + b, 256 * q + p, c * 256 + b);
  }

  lemma AccumulateByte(val: int, s: seq<byte>, i: nat)
    requires i < |s| && val >= 0 && Accumulates(val, s, i)
    ensures Accumulates(Unsigned(val * 256 + s[i]), s, i + 1)
  {
    WrapKeepsLow(val * 256 + s[i]);
    ShiftInByte(val, ByteAt(s, i - 2), ByteAt(s, i - 1), s[i]);
  }

  lemma Powers()
    ensures Pow2(0) == 1 && Pow2(2) == 4 && Pow2(4) == 16 && Pow2(6) == 64
  {}

  // The four places six bits can sit above the low end of two bytes a, b.
  lemma BitsAtTwo(val: int, a: int, b: int)
    requires val >= 0 && 0 <= a < 256 && 0 <= b < 256 && val % 0x1_0000 == a * 256 + b
    ensures val / 4 % 64 == b / 4
  {
    var q, w, x := val / 0x1_0000, b / 4, b % 4;
    var high := 256 * q + a;
    assert val == 4 * (64 * high + w) + x;
    assert val / 4 == 64 * high + w;
  }

  lemma SixteenthOf(val: int, high: int, low: int, x: int)
    requires val == 16 * (64 * high + low) + x && 0 <= low < 64 && 0 <= x < 16
    ensures val / 16 % 64 == low
  {
    assert val / 16 == 64 * high + low;
  }

  lemma BitsAtFour(val: int, a: int, b: int)
    requires val >= 0 && 0 <= a < 256 && 0 <= b < 256 && val % 0x1_0000 == a * 256 + b
    ensures val / 16 % 64 == a % 4 * 16 + b / 16
  {
    var q, u, v, w, x := val / 0x1_0000, a / 4, a % 4, b / 16, b % 16;
    var high, low := 64 * q + u, v * 16 + w;
    assert val == 0x1_0000 * q + (4 * u + v) * 256 + 16 * w + x;
    SixteenthOf(val, high, low, x);
  }

  lemma BitsAtSix(val: int, a: int, b: int)
    requires val >= 0 && 0 <= a < 256 && 0 <= b < 256 && val % 0x1_0000 == a * 256 + b
    ensures val / 64 % 64 == a % 16 * 4 + b / 64
  {
    var q, u, v, w, x := val / 0x1_0000, a / 16, a % 16, b / 64, b % 64;
    var high, low := 16 * q + u, v * 4 + w;
    assert val == 64 * (64 * high + low) + x;
    assert val / 64 == 64 * high + low;
  }

  lemma BitsAtZero(val: int, a: int, b: int)
    requires val >= 0 && 0 <= a < 256 && 0 <= b < 256 && val % 0x1_0000 == a * 256 + b
    ensures val % 64 == b % 64
  {
    var q := val / 0x1_0000;
    assert val == 64 * (1024 * q + 4 * a + b / 64) + b % 64;
  }

  /** Where the next sextet starts, from the bit positions. */
  lemma SextetPlace(i: nat, out: nat, valb: nat)
    requires valb + 6 == 8 * (i + 1) - 6 * out && valb <= 6
    ensures valb == 0 || valb == 2 || valb == 4 || valb == 6
    ensures valb == 2 ==> out % 4 == 0 && i == 3 * (out / 4)
    ensures valb == 4 ==> out % 4 == 1 && i == 3 * (out / 4) + 1
    ensures valb == 6 ==> out % 4 == 2 && i == 3 * (out / 4) + 2
    ensures valb == 0 ==> out % 4 == 3 && i == 3 * (out / 4) + 2
  {
    var m, k := out / 4, out % 4;
    assert out == 4 * m + k;
  }

  /** The six bits at offset valb of the accumulator are the next sextet. */
  lemma NextSextet(val: int, s: seq<byte>, i: nat, out: nat, valb: nat)
    requires i < |s| && val >= 0 && Accumulates(val, s, i + 1)
    requires valb + 6 == 8 * (i + 1) - 6 * out && valb <= 6
    ensures Shr(val, valb) % 64 == Sextet(s, out)
  {
    hide Pow2;
    Powers();
    SextetPlace(i, out, valb);
    var a, b := ByteAt(s, i - 1), ByteAt(s, i);
    if valb == 2 {
      BitsAtTwo(val, a, b);
    } else if valb == 4 {
      BitsAtFour(val, a, b);
    } else if valb == 6 {
      BitsAtSix(val, a, b);
    } else {
      BitsAtZero(val, a, b);
    }
  }

  /** A zero byte shifted in below the last byte. */
  lemma ZeroByteBelow(val: int, b: int)
    requires val >= 0 && 0 <= b < 256 && val % 256 == b
    ensures Unsigned(val * 256) % 0x1_0000 == b * 256
  {
    WrapKeepsLow(val * 256);
    var k := val / 256;
    assert val == 256 * k + b;
    Low16(val * 256, k, b * 256);
  }

  /** The bits left over after the last byte, extended by zero bits. */
  lemma LastSextet(val: int, s: seq<byte>, out: nat, valb: int)
    requires s != [] && val >= 0 && Accumulates(val, s, |s|)
    requires valb + 6 == 8 * |s| - 6 * out && (valb == -4 || valb == -2)
    ensures Shr(Unsigned(val * 256), valb + 8) % 64 == Sextet(s, out)
  {
    hide Pow2;
    Powers();
    var a, b := ByteAt(s, |s| - 2), ByteAt(s, |s| - 1);
    assert val == 256 * (256 * (val / 0x1_0000) + a) + b;
    ZeroByteBelow(val, b);
    SextetPlace(|s|, out, valb + 8);
    var x := Unsigned(val * 256);
    if valb == -4 {
      BitsAtFour(x, b, 0);
    } else {
      BitsAtSix(x, b, 0);
    }
  }

  method Encode(s: seq<byte>) returns (out: seq<byte>)
    ensures out == Rfc4648(s)
  {
    hide Sextet, Code, Pow2, Accumulates;
    out := [];
    var val, valb := 0, -6;
    NothingRead(s);
    for i := 0 to |s|
      invariant val >= 0 && Accumulates(val, s, i)
      invariant valb + 6 == 8 * i - 6 * |out| && -6 <= valb < 0
      invariant forall k :: 0 <= k < |out| ==> out[k] == Code(Sextet(s, k))
    {
      AccumulateByte(val, s, i);
      val := Unsigned(val * 256 + s[i]);
      valb := valb + 8;
      while valb >= 0
        invariant valb + 6 == 8 * (i + 1) - 6 * |out| && -6 <= valb <= 7
        invariant forall k :: 0 <= k < |out| ==> out[k] == Code(Sextet(s, k))
        decreases valb + 6
      {
        BitsAreEven(i, |out|, valb);
        NextSextet(val, s, i, |out|, valb);
        out := out + [Code(Shr(val, valb) % 64)];
        valb := valb - 6;
      }
    }
    if valb > -6 {
      BitsLeft(|s|, |out|, valb);
      LastSextet(val, s, |out|, valb);
      out := out + [Code(Shr(Unsigned(val * 256), valb + 8) % 64)];
    }
    out := PadOut(out, |s|);
  }

  lemma NothingRead(s: seq<byte>)
    ensures Accumulates(0, s, 0)
  {}

  lemma BitsAreEven(i: nat, out: nat, valb: int)
    requires valb + 6 == 8 * (i + 1) - 6 * out && 0 <= valb <= 7
    ensures valb <= 6
  {
    assert valb == 2 * (4 * (i + 1) - 3 * out - 3);
  }

  lemma BitsLeft(n: nat, out: nat, valb: int)
    requires valb + 6 == 8 * n - 6 * out && -6 < valb < 0
    ensures n > 0 && (valb == -4 || valb == -2)
  {}

  lemma PaddedWhenMultiple(c: nat, k: nat)
    requires k <= (4 - c % 4) % 4
    ensures (c + k) % 4 == 0 <==> k == (4 - c % 4) % 4
  {}

  /** while (out.size() % 4) out.push_back('='). */
  method PadOut(body: seq<byte>, n: nat) returns (out: seq<byte>)
    requires |body| == Carriers(n)
    ensures out == body + seq(Padding(n), _ => PAD)
  {
    hide Carriers;
    out := body;
    ghost var k := 0;
    PaddedWhenMultiple(|body|, k);
    while |out| % 4 != 0
      invariant k <= Padding(n) && out == body + seq(k, _ => PAD)
      invariant |out| % 4 == 0 <==> k == Padding(n)
      decreases Padding(n) - k
    {
      out := out + [PAD];
      k := k + 1;
      PaddedWhenMultiple(|body|, k);
    }
  }

  // ----- base64_decode -----

  /** The indices of the alphabet characters before the first '='; other characters are skipped. */
  function Indices(s: seq<byte>): (v: seq<int>)
    ensures forall k :: 0 <= k < |v| ==> 0 <= v[k] < 64
  {
    if s == [] || s[0] == PAD then []
    else (if Index(s[0]) == -1 then [] else [Index(s[0])]) + Indices(s[1..])
  }

  /** Index k of the list, zero beyond its end. */
  function IndexAt(v: seq<int>, k: int): int {
    if 0 <= k < |v| then v[k] else 0
  }

  /** The j-th group of eight bits of a list of six-bit groups. */
  function Octet(v: seq<int>, j: nat): int {
    var m := 4 * (j / 3);
    match j % 3
    case 0 => IndexAt(v, m) * 4 + IndexAt(v, m + 1) / 16
    case 1 => IndexAt(v, m + 1) % 16 * 16 + IndexAt(v, m + 2) / 4
    case _ => IndexAt(v, m + 2) % 4 * 64 + IndexAt(v, m + 3)
  }

  /** The whole bytes in a list of six-bit groups. */
  ghost predicate IsOctets(out: seq<byte>, v: seq<int>) {
    |out| == 6 * |v| / 8 && forall j :: 0 <= j < |out| ==> out[j] == Octet(v, j)
  }

  /** The accumulator's low 12 bits are the last two indices read. */
  ghost predicate Gathers(val: int, v: seq<int>) {
    val % 0x1000 == IndexAt(v, |v| - 2) * 64 + IndexAt(v, |v| - 1)
  }

  ghost predicate Sixes(v: seq<int>) {
    forall k :: 0 <= k < |v| ==> 0 <= v[k] < 64
  }

  /** Wrapping to a signed 32-bit value does not touch the low 12 bits. */
  lemma SignedKeepsLow(x: int)
    ensures Signed(x) % 0x1000 == x % 0x1000
  {
    var q, y := x / TWO32, x % TWO32;
    var q2, z := y / 0x1000, y % 0x1000;
    Low12(x, 0x10_0000 * q + q2, z);
    Low12(y - TWO32, q2 - 0x10_0000, z);
  }

  lemma ShiftInIndex(val: int, p: int, c: int, k: int)
    requires 0 <= p < 64 && 0 <= c < 64 && 0 <= k < 64 && val % 0x1000 == p * 64 + c
    ensures (val * 64 + k) % 0x1000 == c * 64 + k
  {
    var q := val / 0x1000;
    assert val == 0x1000 * q + (p * 64 + c);
    Low12(val * 64 + k, 64 * q + p, c * 64 + k);
  }

  lemma GatherIndex(val: int, v: seq<int>, k: int)
    requires Sixes(v) && Gathers(val, v) && 0 <= k < 64
    ensures Gathers(Signed(val * 64 + k), v + [k])
  {
    hide Signed;
    SignedKeepsLow(val * 64 + k);
    ShiftInIndex(val, IndexAt(v, |v| - 2), IndexAt(v, |v| - 1), k);
  }

  // The three places eight bits can sit above the low end of two indices a, b.
  lemma OctetAtFour(val: int, a: int, b: int)
    requires 0 <= a < 64 && 0 <= b < 64 && val % 0x1000 == a * 64 + b
    ensures val / 16 % 256 == a * 4 + b / 16
  {
    var q, w, x := val / 0x1000, b / 16, b % 16;
    assert val == 16 * (256 * q + (a * 4 + w)) + x;
    assert val / 16 == 256 * q + (a * 4 + w);
  }

  lemma OctetAtTwo(val: int, a: int, b: int)
    requires 0 <= a < 64 && 0 <= b < 64 && val % 0x1000 == a * 64 + b
    ensures val / 4 % 256 == a % 16 * 16 + b / 4
  {
    var q, u, y, w, x := val / 0x1000, a / 16, a % 16, b / 4, b % 4;
    assert val == 0x1000 * q + (16 * u + y) * 64 + 4 * w + x;
    assert val / 4 == 256 * (4 * q + u) + (y * 16 + w);
  }

  lemma OctetAtZero(val: int, a: int, b: int)
    requires 0 <= a < 64 && 0 <= b < 64 && val % 0x1000 == a * 64 + b
    ensures val % 256 == a % 4 * 64 + b
  {
    var q, u, y := val / 0x1000, a / 4, a % 4;
    assert val == 256 * (16 * q + u) + (y * 64 + b);
  }

  lemma OctetPlace(n: nat, out: nat, valb: nat)
    requires n > 0 && valb + 8 == 6 * n - 8 * out && valb < 6
    ensures valb == 0 || valb == 2 || valb == 4
    ensures valb == 4 ==> out % 3 == 0 && n == 4 * (out / 3) + 2
    ensures valb == 2 ==> out % 3 == 1 && n == 4 * (out / 3) + 3
    ensures valb == 0 ==> out % 3 == 2 && n == 4 * (out / 3) + 4
  {
    var m, k := out / 3, out % 3;
    assert out == 3 * m + k;
    assert valb == 2 * (3 * n - 4 * out - 4);
  }

  /** The eight bits at offset valb of the accumulator are the next octet. */
  lemma NextOctet(val: int, v: seq<int>, out: nat, valb: nat)
    requires v != [] && Sixes(v) && Gathers(val, v)
    requires valb + 8 == 6 * |v| - 8 * out && valb < 6
    ensures Shr(val, valb) % 256 == Octet(v, out)
  {
    hide Pow2;
    Powers();
    OctetPlace(|v|, out, valb);
    var a, b := IndexAt(v, |v| - 2), IndexAt(v, |v| - 1);
    if valb == 4 {
      OctetAtFour(val, a, b);
    } else if valb == 2 {
      OctetAtTwo(val, a, b);
    } else {
      OctetAtZero(val, a, b);
    }
  }

  /** The reverse table: T[table[i]] = i, -1 elsewhere. */
  method ReverseTable() returns (t: array<int>)
    ensures fresh(t) && t.Length == 256
    ensures forall c :: 0 <= c < 256 ==> t[c] == Index(c)
  {
    t := new int[256](_ => -1);
    for i := 0 to 64
      invariant forall c :: 0 <= c < 256 ==> t[c] == if 0 <= Index(c) < i then Index(c) else -1
    {
      IndexOfCode(i);
      t[Code(i)] := i;
    }
  }

  /** The decoder's registers after the indices v. */
  ghost predicate Decoding(val: int, valb: int, out: seq<byte>, v: seq<int>) {
    && Sixes(v) && Gathers(val, v)
    && valb + 8 == 6 * |v| - 8 * |out| && -8 <= valb < 0
    && forall j :: 0 <= j < |out| ==> 8 * j + 8 <= 6 * |v| && out[j] == Octet(v, j)
  }

  /** One alphabet character: six more bits, and a byte once eight are there. */
  method Feed(val0: int, valb0: int, out0: seq<byte>, k: int, ghost v: seq<int>)
    returns (val: int, valb: int, out: seq<byte>)
    requires Decoding(val0, valb0, out0, v) && 0 <= k < 64
    ensures Decoding(val, valb, out, v + [k])
  {
    hide Pow2, Octet, Gathers;
    GatherIndex(val0, v, k);
    OctetsStay(v, k, out0);
    val := Signed(val0 * 64 + k);
    valb := valb0 + 6;
    out := out0;
    if valb >= 0 {
      NextOctet(val, v + [k], |out|, valb);
      out := out + [Shr(val, valb) % 256];
      valb := valb - 8;
    }
  }

  method Decode(s: seq<byte>) returns (out: seq<byte>)
    ensures IsOctets(out, Indices(s))
  {
    hide Index, Code, Decoding;
    out := [];
    var t := ReverseTable();
    var val, valb := 0, -8;
    ghost var v: seq<int> := [];
    NothingGathered();
    for i := 0 to |s|
      invariant v + Indices(s[i..]) == Indices(s) && Decoding(val, valb, out, v)
      invariant forall c :: 0 <= c < 256 ==> t[c] == Index(c)
    {
      var c := s[i];
      assert s[i..][1..] == s[i + 1..] && s[i..][0] == c;
      var k := t[c];
      assert k == Index(c);
      if c == PAD {
        assert Indices(s) == v;
        WholeBytes(val, valb, out, v);
        return;
      }
      if k == -1 {
        assert [] + Indices(s[i + 1..]) == Indices(s[i + 1..]);
        continue;
      }
      assert (v + [k]) + Indices(s[i + 1..]) == v + ([k] + Indices(s[i + 1..]));
      val, valb, out := Feed(val, valb, out, k, v);
      v := v + [k];
    }
    assert s[|s|..] == [] && v + [] == v;
    WholeBytes(val, valb, out, v);
  }

  lemma WholeBytes(val: int, valb: int, out: seq<byte>, v: seq<int>)
    requires Decoding(val, valb, out, v)
    ensures IsOctets(out, v)
  {
    hide Octet, Gathers;
  }

  lemma NothingGathered()
    ensures Decoding(0, -8, [], [])
  {}

  /** Octets already complete do not change when more indices follow. */
  lemma OctetsStay(v: seq<int>, k: int, out: seq<byte>)
    requires forall j :: 0 <= j < |out| ==> 8 * j + 8 <= 6 * |v| && out[j] == Octet(v, j)
    ensures forall j :: 0 <= j < |out| ==> 8 * j + 8 <= 6 * |v + [k]| && out[j] == Octet(v + [k], j)
  {
    forall j | 0 <= j < |out| ensures out[j] == Octet(v + [k], j) {
      OctetStays(v, k, j);
    }
  }

  lemma OctetStays(v: seq<int>, k: int, j: nat)
    requires 8 * j + 8 <= 6 * |v|
    ensures Octet(v + [k], j) == Octet(v, j)
  {
    var m, r := j / 3, j % 3;
    assert j == 3 * m + r;
  }

  // ----- round trip -----

  function Sextets(s: seq<byte>): (v: seq<int>)
    ensures |v| == Carriers(|s|)
  {
    seq(Carriers(|s|), k requires 0 <= k < Carriers(|s|) => Sextet(s, k))
  }

  lemma {:induction false} IndicesOfCodes(v: seq<int>, rest: seq<byte>)
    requires Sixes(v)
    ensures Indices(seq(|v|, k requires 0 <= k < |v| => Code(v[k])) + rest) == v + Indices(rest)
  {
    hide Code, Index, Indices;
    var codes := seq(|v|, k requires 0 <= k < |v| => Code(v[k]));
    if v == [] {
      assert codes + rest == rest;
    } else {
      var tail := seq(|v[1..]|, k requires 0 <= k < |v[1..]| => Code(v[1..][k]));
      IndicesOfCodes(v[1..], rest);
      assert codes + rest == [Code(v[0])] + (tail + rest);
      NextIndex(v[0], tail + rest);
      assert v == [v[0]] + v[1..];
    }
  }

  lemma NextIndex(k: int, rest: seq<byte>)
    requires 0 <= k < 64
    ensures Indices([Code(k)] + rest) == [k] + Indices(rest)
  {
    IndexOfCode(k);
    hide Code, Index;
    assert ([Code(k)] + rest)[1..] == rest;
  }

  /** The indices of the encoding are the sextets of the input. */
  lemma IndicesOfEncoding(s: seq<byte>)
    ensures Indices(Rfc4648(s)) == Sextets(s)
  {
    hide Code, Sextet;
    var v, pad := Sextets(s), seq(Padding(|s|), _ => PAD);
    IndicesOfCodes(v, pad);
    assert seq(|v|, k requires 0 <= k < |v| => Code(v[k])) + pad == Rfc4648(s);
    assert Indices(pad) == [];
  }

  /** The four sextets of a block, in terms of its three bytes. */
  lemma Regroup(s: seq<byte>, m: nat)
    ensures Sextet(s, 4 * m) == ByteAt(s, 3 * m) / 4
    ensures Sextet(s, 4 * m + 1) == ByteAt(s, 3 * m) % 4 * 16 + ByteAt(s, 3 * m + 1) / 16
    ensures Sextet(s, 4 * m + 2) == ByteAt(s, 3 * m + 1) % 16 * 4 + ByteAt(s, 3 * m + 2) / 64
    ensures Sextet(s, 4 * m + 3) == ByteAt(s, 3 * m + 2) % 64
  {}

  /** Six-bit pieces of bytes x, y, z put back together. */
  lemma Rejoin(x: byte, y: byte, z: byte)
    ensures x / 4 * 4 + (x % 4 * 16 + y / 16) / 16 == x
    ensures (x % 4 * 16 + y / 16) % 16 * 16 + (y % 16 * 4 + z / 64) / 4 == y
    ensures (y % 16 * 4 + z / 64) % 4 * 64 + z % 64 == z
  {}

  /** Byte 3m + r of the input needs the sextets up to 4m + r + 1. */
  lemma EnoughSextets(n: nat, m: nat, r: nat)
    requires r < 3 && 3 * m + r < n
    ensures 4 * m + r + 1 < Carriers(n)
  {
    assert 8 * n + 5 >= 6 * (4 * m + r + 2);
  }

  lemma SextetsCarryBytes(s: seq<byte>, j: nat)
    requires j < |s|
    ensures Octet(Sextets(s), j) == s[j]
  {
    hide Sextet;
    var m, r := j / 3, j % 3;
    assert j == 3 * m + r;
    var v := Sextets(s);
    EnoughSextets(|s|, m, r);
    Regroup(s, m);
    Rejoin(ByteAt(s, 3 * m), ByteAt(s, 3 * m + 1), ByteAt(s, 3 * m + 2));
    assert forall k :: 0 <= k < |v| ==> IndexAt(v, k) == Sextet(s, k);
  }

  /** base64_decode(base64_encode(s)) == s, for every byte string. */
  lemma RoundTrip(s: seq<byte>, out: seq<byte>)
    requires IsOctets(out, Indices(Rfc4648(s)))
    ensures out == s
  {
    hide Octet, Code, Sextet;
    IndicesOfEncoding(s);
    var q, r := |s| / 3, |s| % 3;
    CarriersByThrees(q, r);
    assert |out| == |s|;
    forall j | 0 <= j < |s| ensures out[j] == s[j] {
      SextetsCarryBytes(s, j);
    }
  }

  /** The two methods in sequence. */
  method EncodeThenDecode(s: seq<byte>) returns (out: seq<byte>)
    ensures out == s
  {
    hide Octet, Code, Sextet, Indices;
    var encoded := Encode(s);
    out := Decode(encoded);
    RoundTrip(s, out);
  }
}
