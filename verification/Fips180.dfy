/**
 The SHA-256 standard, FIPS 180-4, as pure functions over byte strings: the
 padding of section 5.1.1, the message schedule and compression of section
 6.2.2, and the hexadecimal form of a digest. It is the reference that the
 browser's streaming hasher is proved against.
 */
module Fips180 {
  import opened Basics

  type Word = bv32

  /** Eight words: a hash value H(i), or the working variables a to h. */
  datatype Hash = Hash(a: Word, b: Word, c: Word, d: Word, e: Word, f: Word, g: Word, h: Word)

  const INITIAL := Hash(0x6a09e667, 0xbb67ae85, 0x3c6ef372, 0xa54ff53a,
                        0x510e527f, 0x9b05688c, 0x1f83d9ab, 0x5be0cd19)

  const K: seq<Word> :=
    [0x428a2f98, 0x71374491, 0xb5c0fbcf, 0xe9b5dba5, 0x3956c25b, 0x59f111f1, 0x923f82a4, 0xab1c5ed5] +
    [0xd807aa98, 0x12835b01, 0x243185be, 0x550c7dc3, 0x72be5d74, 0x80deb1fe, 0x9bdc06a7, 0xc19bf174] +
    [0xe49b69c1, 0xefbe4786, 0x0fc19dc6, 0x240ca1cc, 0x2de92c6f, 0x4a7484aa, 0x5cb0a9dc, 0x76f988da] +
    [0x983e5152, 0xa831c66d, 0xb00327c8, 0xbf597fc7, 0xc6e00bf3, 0xd5a79147, 0x06ca6351, 0x14292967] +
    [0x27b70a85, 0x2e1b2138, 0x4d2c6dfc, 0x53380d13, 0x650a7354, 0x766a0abb, 0x81c2c92e, 0x92722c85] +
    [0xa2bfe8a1, 0xa81a664b, 0xc24b8b70, 0xc76c51a3, 0xd192e819, 0xd6990624, 0xf40e3585, 0x106aa070] +
    [0x19a4c116, 0x1e376c08, 0x2748774c, 0x34b0bcb5, 0x391c0cb3, 0x4ed8aa4a, 0x5b9cca4f, 0x682e6ff3] +
    [0x748f82ee, 0x78a5636f, 0x84c87814, 0x8cc70208, 0x90befffa, 0xa4506ceb, 0xbef9a3f7, 0xc67178f2]

  /** Addition modulo 2^32. */
  function Add(x: Word, y: Word): Word { x + y }

  // --- section 4.1.2: the six logical functions ---------------------------

  function Ch(x: Word, y: Word, z: Word): Word { (x & y) ^ (!x & z) }

  function Maj(x: Word, y: Word, z: Word): Word { (x & y) ^ (x & z) ^ (y & z) }

  function BigSigma0(x: Word): Word { x.RotateRight(2) ^ x.RotateRight(13) ^ x.RotateRight(22) }

  function BigSigma1(x: Word): Word { x.RotateRight(6) ^ x.RotateRight(11) ^ x.RotateRight(25) }

  function SmallSigma0(x: Word): Word { x.RotateRight(7) ^ x.RotateRight(18) ^ (x >> 3) }

  function SmallSigma1(x: Word): Word { x.RotateRight(17) ^ x.RotateRight(19) ^ (x >> 10) }

  // --- section 5.1.1: padding ---------------------------------------------

  /** How many zero bytes follow the 0x80 byte: the least count that leaves 8 bytes of the last block. */
  function ZeroCount(n: nat): (z: nat)
    ensures z < 64 && (n + 1 + z) % 64 == 56
  {
    (119 - n % 64) % 64
  }

  const LENGTH_BYTES: nat := 8

  /** The low `width` bytes of n, most significant first. */
  function BigEndian(n: nat, width: nat): (s: seq<Byte>)
    ensures |s| == width
  {
    if width == 0 then [] else BigEndian(n / 256, width - 1) + [n % 256]
  }

  function Pad(m: seq<Byte>): (p: seq<Byte>)
    ensures |p| % 64 == 0 && m <= p
  {
    hide ZeroCount, BigEndian;
    PadAligned(|m|, ZeroCount(|m|));
    m + [0x80] + seq(ZeroCount(|m|), _ => 0) + BigEndian(8 * |m|, LENGTH_BYTES)
  }

  lemma PadAligned(n: nat, z: nat)
    requires (n + 1 + z) % 64 == 56
    ensures (n + 1 + z + 8) % 64 == 0
  {
  }

  // --- section 6.2.2: hash computation --------------------------------------

  function WordOf(b0: Byte, b1: Byte, b2: Byte, b3: Byte): Word {
    (b0 as Word << 24) | (b1 as Word << 16) | (b2 as Word << 8) | (b3 as Word)
  }

  /** The message schedule; its four terms are written in the order the browser adds them. */
  function W(block: seq<Byte>, t: nat): Word
    requires |block| == 64
  {
    if t < 16 then WordOf(block[4 * t], block[4 * t + 1], block[4 * t + 2], block[4 * t + 3])
    else Add(Add(Add(W(block, t - 16), SmallSigma0(W(block, t - 15))), W(block, t - 7)), SmallSigma1(W(block, t - 2)))
  }

  function Round(v: Hash, k: Word, w: Word): Hash {
    var t1 := Add(Add(Add(Add(v.h, BigSigma1(v.e)), Ch(v.e, v.f, v.g)), k), w);
    var t2 := Add(BigSigma0(v.a), Maj(v.a, v.b, v.c));
    Hash(Add(t1, t2), v.a, v.b, v.c, Add(v.d, t1), v.e, v.f, v.g)
  }

  /** The working variables after t rounds over a block. */
  function Rounds(v: Hash, block: seq<Byte>, t: nat): Hash
    requires |block| == 64 && t <= |K|
  {
    if t == 0 then v else Round(Rounds(v, block, t - 1), K[t - 1], W(block, t - 1))
  }

  lemma RoundsStep(v: Hash, block: seq<Byte>, t: nat)
    requires |block| == 64 && t < |K|
    ensures Rounds(v, block, t + 1) == Round(Rounds(v, block, t), K[t], W(block, t))
  {
  }

  function Compress(v: Hash, block: seq<Byte>): Hash
    requires |block| == 64
  {
    var r := Rounds(v, block, |K|);
    Hash(Add(v.a, r.a), Add(v.b, r.b), Add(v.c, r.c), Add(v.d, r.d),
         Add(v.e, r.e), Add(v.f, r.f), Add(v.g, r.g), Add(v.h, r.h))
  }

  /** The hash value after the whole blocks of m. */
  function Absorb(m: seq<Byte>): Hash
    requires |m| % 64 == 0
  {
    if m == [] then INITIAL else Compress(Absorb(m[..|m| - 64]), m[|m| - 64..])
  }

  function Sha256(m: seq<Byte>): Hash { Absorb(Pad(m)) }

  lemma AbsorbBlock(m: seq<Byte>, block: seq<Byte>)
    requires |m| % 64 == 0 && |block| == 64
    ensures |m + block| % 64 == 0
    ensures Absorb(m + block) == Compress(Absorb(m), block)
  {
    assert (m + block)[..|m + block| - 64] == m;
    assert (m + block)[|m + block| - 64..] == block;
  }

  // --- hexadecimal ------------------------------------------------------------

  const WORD_DIGITS: nat := 8
  const HEX_DIGITS: string := "0123456789abcdef"

  /** Exactly `width` hexadecimal digits of n, most significant first. */
  function FixedHex(n: nat, width: nat): (s: string)
    ensures |s| == width
  {
    if width == 0 then "" else FixedHex(n / 16, width - 1) + [HEX_DIGITS[n % 16]]
  }

  function DigitValue(c: char): nat {
    if '0' <= c <= '9' then (c - '0') as nat else if 'a' <= c <= 'f' then 10 + (c - 'a') as nat else 0
  }

  function FromHex(s: string): nat {
    if s == "" then 0 else 16 * FromHex(s[..|s| - 1]) + DigitValue(s[|s| - 1])
  }

  function Pow16(k: nat): (p: nat)
    ensures p > 0
  {
    if k == 0 then 1 else 16 * Pow16(k - 1)
  }

  lemma DigitRoundTrip(d: nat)
    requires d < 16
    ensures DigitValue(HEX_DIGITS[d]) == d
  {
  }

  lemma Narrower(n: nat, width: nat)
    requires width > 0 && n < Pow16(width)
    ensures n / 16 < Pow16(width - 1)
  {
  }

  /** Fixed-width hexadecimal is read back as the number it was written from. */
  lemma {:induction false} FixedHexRoundTrip(n: nat, width: nat)
    requires n < Pow16(width)
    ensures FromHex(FixedHex(n, width)) == n
  {
    hide DigitValue, Pow16;
    if width > 0 {
      Narrower(n, width);
      FixedHexRoundTrip(n / 16, width - 1);
      var s := FixedHex(n, width);
      assert s[..|s| - 1] == FixedHex(n / 16, width - 1);
      DigitRoundTrip(n % 16);
    } else {
      NothingBelow(n);
    }
  }

  lemma NothingBelow(n: nat)
    requires n < Pow16(0)
    ensures n == 0
  {
  }

  function HexWords(words: seq<Word>): string {
    if words == [] then "" else HexWords(words[..|words| - 1]) + FixedHex(words[|words| - 1] as nat, WORD_DIGITS)
  }

  /** The hexadecimal digest of a message. */
  function HexDigest(m: seq<Byte>): string {
    var v := Sha256(m);
    HexWords([v.a, v.b, v.c, v.d, v.e, v.f, v.g, v.h])
  }
}
