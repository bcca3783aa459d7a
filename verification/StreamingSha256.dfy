/**
 The browser's incremental SHA-256 (class SHA256 and sha256File in app.js):
 a 64-byte carry buffer, block-by-block compression in place, and the final
 padding with its 56/120 split. However the input is cut, the digest is the
 one FIPS 180-4 gives for the concatenation.

 JavaScript numbers are doubles. Every sum in the compression is an exact
 integer far below 2^53 that ends in `>>> 0`, and the bit operators work on
 32 bits, so a word here is a bv32. Byte counts are exact below 2^53, which
 is the limit the source states for files.
 */
module StreamingSha256 {
  import opened Basics
  import opened Fips180

  const TWO_53: nat := 0x20_0000_0000_0000
  const TWO_32: nat := 0x1_0000_0000
  const CHUNK: nat := 8 * 1024 * 1024

  // JavaScript's `x >>> 24`, `x >>> 16` and `x >>> 8` on a non-negative integer.
  function Shift24(x: nat): nat { x % TWO_32 / 0x100_0000 }

  function Shift16(x: nat): nat { x % TWO_32 / 0x1_0000 }

  function Shift8(x: nat): nat { x % TWO_32 / 0x100 }

  /** What storing a non-negative integer in a Uint8Array keeps. */
  function Uint8(x: nat): Byte { x % 256 }

  /** The source's `(x + y) >>> 0`. */
  function Plus(x: Word, y: Word): Word { x + y }

  class Hasher {
    const h: array<Word>
    const buf: array<Byte>
    var bufLen: nat
    var bytes: nat
    ghost var hashed: seq<Byte>  // the whole blocks already compressed into h

    /** The hash words as a value. */
    ghost function Words(): Hash
      reads h
      requires h.Length == 8
    {
      Hash(h[0], h[1], h[2], h[3], h[4], h[5], h[6], h[7])
    }

    ghost predicate Shape()
      reads this
    {
      h.Length == 8 && buf.Length == 64 && bufLen <= 64
    }

    /** Everything passed to Update so far. */
    ghost function Fed(): seq<Byte>
      reads this, buf
      requires Shape()
    {
      hashed + buf[..bufLen]
    }

    /** The words hold the compressed blocks, the carry buffer an incomplete one. */
    ghost predicate Valid()
      reads this, h, buf
    {
      && Shape()
      && bufLen < 64
      && bytes == |hashed| + bufLen
      && |hashed| % 64 == 0
      && Words() == Absorb(hashed)
    }

    constructor ()
      ensures Valid() && fresh(h) && fresh(buf) && Fed() == []
    {
      h := new Word[8] [0x6a09e667, 0xbb67ae85, 0x3c6ef372, 0xa54ff53a,
                        0x510e527f, 0x9b05688c, 0x1f83d9ab, 0x5be0cd19];
      buf := new Byte[64](_ => 0);
      bufLen := 0;
      bytes := 0;
      hashed := [];
    }

    /** Compresses the 64 bytes of p at off into the hash words. */
    method Block(p: seq<Byte>, off: nat)
      requires Shape() && off + 64 <= |p|
      modifies h
      ensures Words() == Compress(old(Words()), p[off..off + 64])
    {
      hide Add, Plus, Ch, Maj, BigSigma0, BigSigma1, W;
      PlusIsAdd();
      ghost var block, start := p[off..off + 64], Words();
      var w := Schedule(p, off);
      var a, b, c, d := h[0], h[1], h[2], h[3];
      var e, f, g, hh := h[4], h[5], h[6], h[7];
      for i := 0 to 64
        invariant Hash(a, b, c, d, e, f, g, hh) == Rounds(start, block, i)
        invariant Words() == start && forall j :: 0 <= j < 64 ==> w[j] == W(block, j)
      {
        var S1 := ((e >> 6) | (e << 26)) ^ ((e >> 11) | (e << 21)) ^ ((e >> 25) | (e << 7));
        var ch := (e & f) ^ (!e & g);
        var t1 := Plus(Plus(Plus(Plus(hh, S1), ch), K[i]), w[i]);
        var S0 := ((a >> 2) | (a << 30)) ^ ((a >> 13) | (a << 19)) ^ ((a >> 22) | (a << 10));
        var maj := (a & b) ^ (a & c) ^ (b & c);
        var t2 := Plus(S0, maj);
        RotationForms(a, e);
        LogicForms(a, b, c, e, f, g);
        RoundsStep(start, block, i);
        hh := g;
        g := f;
        f := e;
        e := Plus(d, t1);
        d := c;
        c := b;
        b := a;
        a := Plus(t1, t2);
      }
      FeedForward(a, b, c, d, e, f, g, hh);
    }

    /** The last two lines of the block function: h[k] = (h[k] + ...) >>> 0 for each word. */
    method FeedForward(a: Word, b: Word, c: Word, d: Word, e: Word, f: Word, g: Word, hh: Word)
      requires Shape()
      modifies h
      ensures var v := old(Words());
              Words() == Hash(Add(v.a, a), Add(v.b, b), Add(v.c, c), Add(v.d, d),
                              Add(v.e, e), Add(v.f, f), Add(v.g, g), Add(v.h, hh))
    {
      hide Add, Plus;
      PlusIsAdd();
      h[0], h[1], h[2], h[3] := Plus(h[0], a), Plus(h[1], b), Plus(h[2], c), Plus(h[3], d);
      h[4], h[5], h[6], h[7] := Plus(h[4], e), Plus(h[5], f), Plus(h[6], g), Plus(h[7], hh);
    }

    /** Feeds a chunk of any length, including none. */
    method Update(chunk: seq<Byte>)
      requires Valid()
      modifies this, h, buf
      ensures Valid() && Fed() == old(Fed()) + chunk
    {
      hide Absorb, Compress;
      ghost var before := Fed();
      bytes := bytes + |chunk|;
      var off := 0;
      if bufLen != 0 {
        off := TopUp(chunk);
      }
      while off + 64 <= |chunk|
        invariant off <= |chunk| && Shape() && bufLen < 64 && |hashed| % 64 == 0
        invariant bytes == |before| + |chunk|
        invariant bufLen == 0 || off == |chunk|
        invariant Fed() == before + chunk[..off]
        invariant Words() == Absorb(hashed)
      {
        ghost var block := chunk[off..off + 64];
        AbsorbBlock(hashed, block);
        Extend(hashed, buf[..bufLen], before, chunk, off);
        Block(chunk, off);
        hashed := hashed + block;
        off := off + 64;
      }
      if off < |chunk| {
        Rejoin(before, chunk, off);
        Keep(chunk[off..]);
      } else {
        assert chunk[..off] == chunk;
      }
    }

    /** The first branch of Update: completes the carry buffer as far as the chunk reaches. */
    method TopUp(chunk: seq<Byte>) returns (off: nat)
      requires Shape() && 0 < bufLen < 64 && |hashed| % 64 == 0
      requires Words() == Absorb(hashed)
      modifies this`bufLen, this`hashed, h, buf
      ensures off <= |chunk| && bufLen < 64 && |hashed| % 64 == 0
      ensures bufLen == 0 || off == |chunk|
      ensures Fed() == old(Fed()) + chunk[..off]
      ensures Words() == Absorb(hashed)
    {
      hide Absorb, Compress;
      ghost var before := Fed();
      var need := if 64 - bufLen < |chunk| then 64 - bufLen else |chunk|;
      Append(chunk[..need]);
      off := need;
      if bufLen == 64 {
        AbsorbBlock(hashed, buf[..]);
        assert buf[..][0..64] == buf[..] == buf[..bufLen];
        Block(buf[..], 0);
        hashed := hashed + buf[..];
        bufLen := 0;
      }
    }

    /** this.buf.set(part, this.bufLen) and the new length. */
    method Append(part: seq<Byte>)
      requires Shape() && bufLen + |part| <= 64
      modifies this`bufLen, buf
      ensures Shape() && bufLen == old(bufLen) + |part|
      ensures Fed() == old(Fed()) + part
    {
      forall i | 0 <= i < |part| {
        buf[bufLen + i] := part[i];
      }
      assert buf[..bufLen + |part|] == old(buf[..bufLen]) + part;
      bufLen := bufLen + |part|;
    }

    /** The last branch of Update: the rest of the chunk, less than a block, goes to an empty carry buffer. */
    method Keep(rest: seq<Byte>)
      requires Shape() && bufLen == 0 && |rest| < 64
      modifies this`bufLen, buf
      ensures Shape() && bufLen == |rest|
      ensures Fed() == old(Fed()) + rest
    {
      Append(rest);
    }

    /** Pads, absorbs the padding and renders the words: the digest of everything fed. */
    method Hex() returns (digest: string)
      requires Valid() && |Fed()| < TWO_53
      modifies this, h, buf
      ensures digest == HexDigest(old(Fed()))
    {
      hide Absorb, Pad;
      ghost var message := Fed();
      FinishPadding();
      digest := "";
      for i := 0 to 8
        invariant digest == HexWords(h[..i])
        invariant Words() == Sha256(message)
      {
        WordHex(h[i] as nat);
        digest := digest + PadStart(ToString16(h[i] as nat), WORD_DIGITS);
        assert h[..i + 1][..i] == h[..i];
      }
      assert h[..8] == [h[0], h[1], h[2], h[3], h[4], h[5], h[6], h[7]];
    }

    /** The first half of Hex: everything up to the final update. */
    method FinishPadding()
      requires Valid() && |Fed()| < TWO_53
      modifies this, h, buf
      ensures Shape() && Words() == Sha256(old(Fed()))
    {
      hide Absorb, ZeroCount, BigEndian;
      ghost var message := Fed();
      assert bufLen == |message| % 64;
      var pad := Padding(bytes, bufLen);
      assert message + pad[..] == Pad(message);
      Update(pad[..]);
      Aligned(message, hashed, buf[..bufLen]);
    }
  }

  /** The expansion of the block at off into the 64-word message schedule. */
  method Schedule(p: seq<Byte>, off: nat) returns (w: array<Word>)
    requires off + 64 <= |p|
    ensures fresh(w) && w.Length == 64
    ensures forall j :: 0 <= j < 64 ==> w[j] == W(p[off..off + 64], j)
  {
    hide W, Add, Plus, SmallSigma0, SmallSigma1;
    PlusIsAdd();
    ghost var block := p[off..off + 64];
    w := new Word[64];
    for i := 0 to 16
      invariant forall j :: 0 <= j < i ==> w[j] == W(block, j)
    {
      FirstWords(p, off, i);
      w[i] := (p[off + 4 * i] as Word << 24) | (p[off + 4 * i + 1] as Word << 16)
              | (p[off + 4 * i + 2] as Word << 8) | (p[off + 4 * i + 3] as Word);
    }
    for i := 16 to 64
      invariant forall j :: 0 <= j < i ==> w[j] == W(block, j)
    {
      var a, b := w[i - 15], w[i - 2];
      var s0 := ((a >> 7) | (a << 25)) ^ ((a >> 18) | (a << 14)) ^ (a >> 3);
      var s1 := ((b >> 17) | (b << 15)) ^ ((b >> 19) | (b << 13)) ^ (b >> 10);
      SigmaForms(a, b);
      LaterWords(block, i);
      w[i] := Plus(Plus(Plus(w[i - 16], s0), w[i - 7]), s1);
    }
  }

  /** The bytes that Hex feeds last: 0x80, zeros up to the 56th byte of a block, the bit length in two words. */
  method Padding(bytes: nat, bufLen: nat) returns (pad: array<Byte>)
    requires bytes < TWO_53 && bufLen == bytes % 64
    ensures fresh(pad)
    ensures pad[..] == [0x80] + seq(ZeroCount(bytes), _ => 0) + BigEndian(8 * bytes, LENGTH_BYTES)
  {
    hide BigEndian, ZeroCount;
    PadLength(bytes, bufLen);
    var padLen := (if bufLen < 56 then 56 else 120) - bufLen;
    pad := new Byte[padLen + 8](_ => 0);
    pad[0] := 0x80;
    assert pad[..padLen] == [0x80] + seq(ZeroCount(bytes), _ => 0);
    WriteLength(pad, padLen, bytes * 8);
    assert pad[..] == pad[..padLen] + pad[padLen..];
  }

  /** The bit length as two 32-bit words, big-endian, in the last 8 bytes. */
  method WriteLength(pad: array<Byte>, padLen: nat, bits: nat)
    requires pad.Length == padLen + 8 && bits < 8 * TWO_53
    modifies pad
    ensures pad[..padLen] == old(pad[..padLen])
    ensures pad[padLen..] == BigEndian(bits, LENGTH_BYTES)
  {
    hide BigEndian, Shift24, Shift16, Shift8, Uint8;
    var hi, lo := bits / TWO_32, bits % TWO_32;
    pad[padLen], pad[padLen + 1] := Uint8(Shift24(hi)), Uint8(Shift16(hi));
    pad[padLen + 2], pad[padLen + 3] := Uint8(Shift8(hi)), Uint8(hi);
    pad[padLen + 4], pad[padLen + 5] := Uint8(Shift24(lo)), Uint8(Shift16(lo));
    pad[padLen + 6], pad[padLen + 7] := Uint8(Shift8(lo)), Uint8(lo);
    LengthBytes(bits);
  }

  lemma PadLength(bytes: nat, bufLen: nat)
    requires bufLen == bytes % 64
    ensures (if bufLen < 56 then 56 else 120) - bufLen - 1 == ZeroCount(bytes)
  {
  }

  /** Once the padding is in, nothing is left in the carry buffer. */
  lemma Aligned(message: seq<Byte>, hashed: seq<Byte>, carry: seq<Byte>)
    requires hashed + carry == Pad(message) && |hashed| % 64 == 0 && |carry| < 64
    ensures hashed == Pad(message)
  {
    assert |Pad(message)| % 64 == 0 && |Pad(message)| == |hashed| + |carry|;
    assert |carry| == 0;
    assert hashed + carry == hashed;
  }

  lemma Extend(hashed: seq<Byte>, carry: seq<Byte>, before: seq<Byte>, chunk: seq<Byte>, off: nat)
    requires off + 64 <= |chunk| && carry == [] && hashed + carry == before + chunk[..off]
    ensures hashed + chunk[off..off + 64] + [] == before + chunk[..off + 64]
  {
    assert hashed + carry == hashed;
    assert chunk[..off + 64] == chunk[..off] + chunk[off..off + 64];
  }

  lemma Rejoin(before: seq<Byte>, chunk: seq<Byte>, off: nat)
    requires off <= |chunk|
    ensures before + chunk[..off] + chunk[off..] == before + chunk
  {
    assert chunk == chunk[..off] + chunk[off..];
  }

  // --- the lemmas behind Block -------------------------------------------------

  /** The shifts and ors of the source are the rotations of the standard. */
  lemma RotationForms(a: Word, e: Word)
    ensures ((e >> 6) | (e << 26)) ^ ((e >> 11) | (e << 21)) ^ ((e >> 25) | (e << 7)) == BigSigma1(e)
    ensures ((a >> 2) | (a << 30)) ^ ((a >> 13) | (a << 19)) ^ ((a >> 22) | (a << 10)) == BigSigma0(a)
  {
  }

  lemma SigmaForms(x: Word, y: Word)
    ensures ((x >> 7) | (x << 25)) ^ ((x >> 18) | (x << 14)) ^ (x >> 3) == SmallSigma0(x)
    ensures ((y >> 17) | (y << 15)) ^ ((y >> 19) | (y << 13)) ^ (y >> 10) == SmallSigma1(y)
  {
  }

  lemma LogicForms(a: Word, b: Word, c: Word, e: Word, f: Word, g: Word)
    ensures (e & f) ^ (!e & g) == Ch(e, f, g)
    ensures (a & b) ^ (a & c) ^ (b & c) == Maj(a, b, c)
  {
  }

  /** Adding and keeping the low 32 bits is the addition of the standard. */
  lemma PlusIsAdd()
    ensures forall x, y :: Plus(x, y) == Add(x, y)
  {
  }

  lemma FirstWords(p: seq<Byte>, off: nat, i: nat)
    requires off + 64 <= |p| && i < 16
    ensures W(p[off..off + 64], i) ==
            WordOf(p[off + 4 * i], p[off + 4 * i + 1], p[off + 4 * i + 2], p[off + 4 * i + 3])
  {
    hide WordOf;
    var block := p[off..off + 64];
    assert block[4 * i] == p[off + 4 * i] && block[4 * i + 1] == p[off + 4 * i + 1];
    assert block[4 * i + 2] == p[off + 4 * i + 2] && block[4 * i + 3] == p[off + 4 * i + 3];
  }

  lemma LaterWords(block: seq<Byte>, i: nat)
    requires |block| == 64 && 16 <= i
    ensures W(block, i) == Add(Add(Add(W(block, i - 16), SmallSigma0(W(block, i - 15))), W(block, i - 7)),
                               SmallSigma1(W(block, i - 2)))
  {
    hide Add, SmallSigma0, SmallSigma1;
  }

  // --- the lemmas behind Hex ---------------------------------------------------

  /** The two 32-bit halves, byte by byte, are the 64-bit big-endian length. */
  lemma LengthBytes(bits: nat)
    requires bits < 8 * TWO_53
    ensures var hi, lo := bits / TWO_32, bits % TWO_32;
            BigEndian(bits, LENGTH_BYTES) ==
            [Uint8(Shift24(hi)), Uint8(Shift16(hi)), Uint8(Shift8(hi)), Uint8(hi),
             Uint8(Shift24(lo)), Uint8(Shift16(lo)), Uint8(Shift8(lo)), Uint8(lo)]
  {
    var hi, lo := bits / TWO_32, bits % TWO_32;
    FourBytes(hi);
    FourBytes(lo);
    SplitWord(bits);
    var x1, x2, x3 := bits / 256, bits / 256 / 256, bits / 256 / 256 / 256;
    Snoc(bits, LENGTH_BYTES);
    Snoc(x1, LENGTH_BYTES - 1);
    Snoc(x2, LENGTH_BYTES - 2);
    Snoc(x3, LENGTH_BYTES - 3);
  }

  lemma Snoc(n: nat, width: nat)
    requires width > 0
    ensures BigEndian(n, width) == BigEndian(n / 256, width - 1) + [n % 256]
  {
  }

  lemma SplitWord(bits: nat)
    ensures var hi, lo := bits / TWO_32, bits % TWO_32;
            && bits / 256 / 256 / 256 / 256 == hi
            && bits / 256 / 256 / 256 % 256 == Shift24(lo) % 256
            && bits / 256 / 256 % 256 == Shift16(lo) % 256
            && bits / 256 % 256 == Shift8(lo) % 256
            && bits % 256 == lo % 256
  {
    hide Shift24, Shift16, Shift8;
    TopHalf(bits);
    SecondByte(bits);
    ThirdByte(bits);
    FourthByte(bits);
    LastByte(bits);
  }

  lemma TopHalf(x: nat)
    ensures x / 256 / 256 / 256 / 256 == x / TWO_32
  {
  }

  lemma LastByte(x: nat)
    ensures x % 256 == x % TWO_32 % 256
  {
    assert x == 256 * (0x100_0000 * (x / TWO_32)) + x % TWO_32;
  }

  lemma SecondByte(x: nat)
    ensures x / 256 % 256 == Shift8(x % TWO_32) % 256
  {
    var q, lo := x / TWO_32, x % TWO_32;
    assert x == 256 * (0x100_0000 * q) + lo;
    assert x / 256 == 0x100_0000 * q + lo / 256;
    Multiple(0x1_0000 * q, lo / 256);
  }

  lemma Multiple(q: int, r: int)
    ensures (256 * q + r) % 256 == r % 256
  {
  }

  lemma ThirdByte(x: nat)
    ensures x / 256 / 256 % 256 == Shift16(x % TWO_32) % 256
  {
    assert x / 256 / 256 == x / 0x1_0000;
    assert x == 0x1_0000 * (0x1_0000 * (x / TWO_32)) + x % TWO_32;
    assert x / 0x1_0000 == 256 * (0x100 * (x / TWO_32)) + x % TWO_32 / 0x1_0000;
  }

  lemma FourthByte(x: nat)
    ensures x / 256 / 256 / 256 % 256 == Shift24(x % TWO_32) % 256
  {
    assert x / 256 / 256 / 256 == x / 0x100_0000;
    assert x == 0x100_0000 * (256 * (x / TWO_32)) + x % TWO_32;
    assert x / 0x100_0000 == 256 * (x / TWO_32) + x % TWO_32 / 0x100_0000;
  }

  lemma FourBytes(x: nat)
    requires x < TWO_32
    ensures BigEndian(x, LENGTH_BYTES - 4) == [Uint8(Shift24(x)), Uint8(Shift16(x)), Uint8(Shift8(x)), Uint8(x)]
  {
    assert x / 256 == Shift8(x) && Shift8(x) / 256 == Shift16(x) && Shift16(x) / 256 == Shift24(x);
    Snoc(x, LENGTH_BYTES - 4);
    Snoc(Shift8(x), LENGTH_BYTES - 5);
    Snoc(Shift16(x), LENGTH_BYTES - 6);
    Snoc(Shift24(x), LENGTH_BYTES - 7);
  }

  /** Number.prototype.toString(16). */
  function ToString16(n: nat): (s: string)
    ensures |s| > 0
  {
    if n < 16 then [HEX_DIGITS[n]] else ToString16(n / 16) + [HEX_DIGITS[n % 16]]
  }

  /** String.prototype.padStart(width, "0"). */
  function PadStart(s: string, width: nat): (p: string)
    ensures |p| >= width
  {
    if |s| >= width then s else ['0'] + PadStart(s, width - 1)
  }

  /** A number of at most `width` digits, left-padded, is its fixed-width form. */
  lemma {:induction false} PaddedHex(n: nat, width: nat)
    requires width > 0 && n < Pow16(width)
    ensures |ToString16(n)| <= width
    ensures PadStart(ToString16(n), width) == FixedHex(n, width)
  {
    HexSnoc(n, width);
    if width == 1 {
      assert Pow16(1) == 16 && FixedHex(n / 16, 0) == "";
    } else if n < 16 {
      PaddedHex(0, width - 1);
      PadStartSnoc("0", HEX_DIGITS[n], width);
      PadOneMore(HEX_DIGITS[n], width);
    } else {
      PaddedHex(n / 16, width - 1);
      PadStartSnoc(ToString16(n / 16), HEX_DIGITS[n % 16], width);
    }
  }

  lemma HexSnoc(n: nat, width: nat)
    requires width > 0 && n < Pow16(width)
    ensures n / 16 < Pow16(width - 1)
    ensures FixedHex(n, width) == FixedHex(n / 16, width - 1) + [HEX_DIGITS[n % 16]]
    ensures ToString16(n) == if n < 16 then [HEX_DIGITS[n]] else ToString16(n / 16) + [HEX_DIGITS[n % 16]]
    ensures n < 16 ==> n / 16 == 0 && n % 16 == n
    ensures ToString16(0) == "0"
  {
  }

  lemma {:induction false} PadStartSnoc(s: string, c: char, width: nat)
    requires width > 0 && |s| <= width - 1
    ensures PadStart(s + [c], width) == PadStart(s, width - 1) + [c]
    decreases width
  {
    if |s| < width - 1 {
      PadStartSnoc(s, c, width - 1);
    }
  }

  lemma {:induction false} PadOneMore(c: char, width: nat)
    requires width >= 2
    ensures PadStart([c], width) == PadStart("0" + [c], width)
    decreases width
  {
    if width > 2 {
      PadOneMore(c, width - 1);
    }
  }

  lemma WordHex(n: nat)
    requires n < TWO_32
    ensures PadStart(ToString16(n), 8) == FixedHex(n, WORD_DIGITS)
  {
    assert Pow16(8) == TWO_32;
    PaddedHex(n, 8);
  }

  // --- whole runs ----------------------------------------------------------------

  function Concat(pieces: seq<seq<Byte>>): seq<Byte> {
    if pieces == [] then [] else Concat(pieces[..|pieces| - 1]) + pieces[|pieces| - 1]
  }

  /** Every way of cutting the input, empty pieces included, gives the standard's digest. */
  method HashPieces(pieces: seq<seq<Byte>>) returns (digest: string)
    requires |Concat(pieces)| < TWO_53
    ensures digest == HexDigest(Concat(pieces))
  {
    hide Absorb, HexDigest;
    var hasher := new Hasher();
    for i := 0 to |pieces|
      invariant hasher.Valid() && hasher.Fed() == Concat(pieces[..i])
      invariant fresh(hasher) && fresh(hasher.h) && fresh(hasher.buf)
    {
      var piece := pieces[i];
      hasher.Update(piece);
      assert pieces[..i + 1][..i] == pieces[..i];
    }
    assert pieces[..|pieces|] == pieces;
    digest := hasher.Hex();
  }

  /** The upload loop: 8 MiB slices of the file, then one Hex. */
  method Sha256File(file: seq<Byte>) returns (digest: string)
    requires |file| < TWO_53
    ensures digest == HexDigest(file)
  {
    hide Absorb, HexDigest;
    var hasher := new Hasher();
    var off := 0;
    while off < |file|
      invariant hasher.Valid() && hasher.Fed() == file[..if off < |file| then off else |file|]
      invariant fresh(hasher) && fresh(hasher.h) && fresh(hasher.buf)
    {
      var end := if off + CHUNK < |file| then off + CHUNK else |file|;
      hasher.Update(file[off..end]);
      assert file[..off] + file[off..end] == file[..end];
      off := off + CHUNK;
    }
    assert file[..|file|] == file;
    digest := hasher.Hex();
  }
}
