/** UTF-16LE as the answer file writes passwords, before base64. A Dafny char is a Unicode scalar value,
    which is what Go's range over a string yields. */
module Utf16 {
  import opened Basics

  /** The bytes of one 16-bit unit, low byte first. */
  function UnitBytes(u: int): seq<Byte>
    requires 0 <= u < 0x10000
  {
    [u % 256, u / 256]
  }

  function CharBytes(c: char): seq<Byte> {
    var r := c as int;
    if r < 0x10000 then UnitBytes(r)
    else
      var v := r - 0x10000;
      UnitBytes(0xD800 + v / 1024) + UnitBytes(0xDC00 + v % 1024)
  }

  function Encode(s: string): seq<Byte> { if s == "" then [] else CharBytes(s[0]) + Encode(s[1..]) }

  function Unit(b: seq<Byte>): int
    requires |b| >= 2
  {
    b[0] as int + 256 * (b[1] as int)
  }

  predicate IsHigh(u: int) { 0xD800 <= u < 0xDC00 }

  predicate IsLow(u: int) { 0xDC00 <= u < 0xE000 }

  /** Decoding as in section 2.2 of RFC 2781: the first character and how many bytes it takes. */
  function DecodeChar(b: seq<Byte>): (r: Option<(char, nat)>)
    ensures r.Some? ==> 2 <= r.value.1 <= |b|
  {
    if |b| < 2 then None
    else
      var u := Unit(b);
      if !IsHigh(u) && !IsLow(u) then Some((u as char, 2))
      else if IsHigh(u) && |b| >= 4 && IsLow(Unit(b[2..])) then
        Some(((0x10000 + (u - 0xD800) * 1024 + (Unit(b[2..]) - 0xDC00)) as char, 4))
      else None
  }

  function Decode(b: seq<Byte>): Option<string> {
    if b == [] then Some("")
    else
      match DecodeChar(b)
      case None => None
      case Some(first) =>
        match Decode(b[first.1..])
        case None => None
        case Some(rest) => Some([first.0] + rest)
  }

  method EncodeUtf16le(s: string) returns (out: seq<Byte>)
    ensures out == Encode(s)
  {
    hide CharBytes, Encode;
    out := [];
    EncodeSplit(s, 0);
    for i := 0 to |s|
      invariant out + Encode(s[i..]) == Encode(s)
    {
      EncodeSplit(s, i);
      var r := s[i] as int;
      var more: seq<Byte>;
      if r < 0x10000 {
        more := [r % 256, r / 256 % 256];
      } else {
        r := r - 0x10000;
        var hi, lo := 0xD800 + r / 1024, 0xDC00 + r % 1024;
        more := [hi % 256, hi / 256 % 256, lo % 256, lo / 256 % 256];
      }
      assert more == CharBytes(s[i]) by { LoopBytes(s[i]); }
      assert out + (more + Encode(s[i + 1..])) == (out + more) + Encode(s[i + 1..]);
      out := out + more;
    }
    EncodeSplit(s, |s|);
    assert out + [] == out;
  }

  lemma EncodeSplit(s: string, i: nat)
    requires i <= |s|
    ensures i < |s| ==> Encode(s[i..]) == CharBytes(s[i]) + Encode(s[i + 1..])
    ensures i == |s| ==> Encode(s[i..]) == []
    ensures s[0..] == s
  {
    hide CharBytes;
    assert i < |s| ==> s[i..][1..] == s[i + 1..];
  }

  lemma LoopBytes(c: char)
    ensures var r := c as int;
            r < 0x10000 ==> CharBytes(c) == [r % 256, r / 256 % 256]
    ensures var r := c as int - 0x10000;
            var hi, lo := 0xD800 + r / 1024, 0xDC00 + r % 1024;
            r >= 0 ==> CharBytes(c) == [hi % 256, hi / 256 % 256, lo % 256, lo / 256 % 256]
  {
  }

  lemma UnitRoundTrip(u: int, rest: seq<Byte>)
    requires 0 <= u < 0x10000
    ensures Unit(UnitBytes(u) + rest) == u
  {
  }

  lemma CharRoundTrip(c: char, rest: seq<Byte>)
    ensures DecodeChar(CharBytes(c) + rest) == Some((c, |CharBytes(c)|))
    ensures |CharBytes(c)| >= 2
  {
    hide Unit, UnitBytes;
    var r := c as int;
    if r < 0x10000 {
      UnitRoundTrip(r, rest);
      UnitLength(r);
    } else {
      var v := r - 0x10000;
      var hi, lo := UnitBytes(0xD800 + v / 1024), UnitBytes(0xDC00 + v % 1024);
      UnitLength(0xD800 + v / 1024);
      UnitLength(0xDC00 + v % 1024);
      UnitRoundTrip(0xD800 + v / 1024, lo + rest);
      UnitRoundTrip(0xDC00 + v % 1024, rest);
      assert hi + lo + rest == hi + (lo + rest);
      assert (hi + lo + rest)[2..] == lo + rest;
    }
  }

  lemma UnitLength(u: int)
    requires 0 <= u < 0x10000
    ensures |UnitBytes(u)| == 2
  {
  }

  lemma {:induction false} DecodeEncode(s: string)
    ensures Decode(Encode(s)) == Some(s)
  {
    hide DecodeChar, CharBytes;
    if s != "" {
      var head, rest := CharBytes(s[0]), Encode(s[1..]);
      CharRoundTrip(s[0], rest);
      assert (head + rest)[|head|..] == rest;
      DecodeEncode(s[1..]);
      assert s == [s[0]] + s[1..];
    }
  }

  lemma BytesOfUnit(b: seq<Byte>)
    requires |b| >= 2
    ensures 0 <= Unit(b) < 0x10000 && UnitBytes(Unit(b)) == b[..2]
  {
  }

  lemma CharReadBack(b: seq<Byte>)
    requires DecodeChar(b).Some?
    ensures CharBytes(DecodeChar(b).value.0) == b[..DecodeChar(b).value.1]
  {
    hide Unit, UnitBytes;
    BytesOfUnit(b);
    if DecodeChar(b).value.1 == 4 {
      BytesOfUnit(b[2..]);
      assert b[..4] == b[..2] + b[2..][..2];
    }
  }

  lemma {:induction false} EncodeDecode(b: seq<Byte>)
    requires Decode(b).Some?
    ensures Encode(Decode(b).value) == b
  {
    hide DecodeChar, CharBytes;
    if b != [] {
      var first := DecodeChar(b).value;
      CharReadBack(b);
      EncodeDecode(b[first.1..]);
      var s := Decode(b).value;
      assert s[1..] == Decode(b[first.1..]).value;
      assert b == b[..first.1] + b[first.1..];
    }
  }

  /** Encoder and decoder are inverse on every string and on every well-formed byte sequence. */
  lemma EncodingIsExact(s: string, b: seq<Byte>)
    ensures Encode(s) == b <==> Decode(b) == Some(s)
  {
    hide Encode, Decode;
    DecodeEncode(s);
    if Decode(b).Some? {
      EncodeDecode(b);
    }
  }
}

/** SigV4 percent-encoding, and the canonical query. A Go string is a sequence of bytes. */
module SigV4 {
  import opened Basics
  import opened StableSort
  import opened Text
  import Lex

  type Bytes = seq<Byte>

  const PERCENT: Byte := 0x25
  const AMPERSAND: Byte := 0x26
  const SLASH: Byte := 0x2F
  const EQUALS: Byte := 0x3D

  function Char(c: Byte): char { c as int as char }

  predicate Unreserved(c: Byte) {
    'A' <= Char(c) <= 'Z' || 'a' <= Char(c) <= 'z' || '0' <= Char(c) <= '9' || Char(c) in "-._~"
  }

  function HexDigit(n: int): Byte
    requires 0 <= n < 16
  {
    if n < 10 then (0x30 + n) else (0x41 + n - 10)
  }

  function EscapeByte(c: Byte): Bytes {
    if Unreserved(c) then [c] else [PERCENT, HexDigit(c as int / 16), HexDigit(c as int % 16)]
  }

  function Escape(s: Bytes): Bytes { if s == [] then [] else EscapeByte(s[0]) + Escape(s[1..]) }

  method SigV4Escape(s: Bytes) returns (out: Bytes)
    ensures out == Escape(s)
  {
    hide Unreserved, HexDigit, Escape;
    out := [];
    EscapeSplit(s, 0);
    for i := 0 to |s|
      invariant out + Escape(s[i..]) == Escape(s)
    {
      EscapeSplit(s, i);
      var c := s[i];
      var more := if Unreserved(c) then [c] else [PERCENT, HexDigit(c as int / 16), HexDigit(c as int % 16)];
      assert out + (more + Escape(s[i + 1..])) == (out + more) + Escape(s[i + 1..]);
      out := out + more;
    }
    EscapeSplit(s, |s|);
    assert out + [] == out;
  }

  lemma EscapeSplit(s: Bytes, i: nat)
    requires i <= |s|
    ensures i < |s| ==> Escape(s[i..]) == EscapeByte(s[i]) + Escape(s[i + 1..])
    ensures i == |s| ==> Escape(s[i..]) == []
    ensures s[0..] == s
  {
    hide EscapeByte;
    assert i < |s| ==> s[i..][1..] == s[i + 1..];
  }

  predicate Plain(c: char) { c in CAPITALS || c in SMALL || c in DIGITS || c in "-._~" }

  /** Letters, digits and these four signs are left as they are; every other byte becomes a percent sign and two
      upper-case hexadecimal digits. */
  lemma EscapeMeaning(c: Byte)
    ensures Plain(Char(c)) ==> EscapeByte(c) == [c]
    ensures !Plain(Char(c)) ==> AsText(EscapeByte(c)) ==
                                "%" + ["0123456789ABCDEF"[c as int / 16], "0123456789ABCDEF"[c as int % 16]]
  {
    hide HexDigit;
    Alphabets(Char(c));
    HexDigitMeaning(c as int / 16);
    HexDigitMeaning(c as int % 16);
  }

  lemma HexDigitMeaning(n: int)
    requires 0 <= n < 16
    ensures Char(HexDigit(n)) == "0123456789ABCDEF"[n]
  {
  }

  function HexValue(c: Byte): (r: Option<int>)
    ensures r.Some? ==> 0 <= r.value < 16
  {
    if '0' <= Char(c) <= '9' then Some(c as int - 0x30)
    else if 'A' <= Char(c) <= 'F' then Some(c as int - 0x41 + 10)
    else if 'a' <= Char(c) <= 'f' then Some(c as int - 0x61 + 10)
    else None
  }

  /** One byte off the front, as in section 2.1 of RFC 3986, and how many characters it takes. */
  function UnescapeByte(s: Bytes): (r: Option<(Byte, nat)>)
    requires s != []
    ensures r.Some? ==> 1 <= r.value.1 <= |s|
  {
    if s[0] != PERCENT then Some((s[0], 1))
    else if |s| < 3 then None
    else
      match (HexValue(s[1]), HexValue(s[2]))
      case (Some(hi), Some(lo)) => Some(((16 * hi + lo), 3))
      case _ => None
  }

  function Unescape(s: Bytes): Option<Bytes> {
    if s == [] then Some([])
    else
      match UnescapeByte(s)
      case None => None
      case Some(first) =>
        match Unescape(s[first.1..])
        case None => None
        case Some(rest) => Some([first.0] + rest)
  }

  lemma HexRoundTrip(n: int)
    requires 0 <= n < 16
    ensures HexValue(HexDigit(n)) == Some(n)
    ensures Unreserved(HexDigit(n))
  {
  }

  lemma EscapedByte(c: Byte, rest: Bytes)
    ensures EscapeByte(c) != [] && UnescapeByte(EscapeByte(c) + rest) == Some((c, |EscapeByte(c)|))
    ensures forall x :: x in EscapeByte(c) ==> Unreserved(x) || x == PERCENT
  {
    hide HexDigit, HexValue;
    HexRoundTrip(c as int / 16);
    HexRoundTrip(c as int % 16);
    assert !Unreserved(PERCENT);
    var s := EscapeByte(c) + rest;
    if !Unreserved(c) {
      assert s[0] == PERCENT && s[1] == HexDigit(c as int / 16) && s[2] == HexDigit(c as int % 16);
    }
  }

  /** Escaping is undone by unescaping, and what follows is read on its own. */
  lemma {:induction false} UnescapeEscape(s: Bytes, rest: Bytes)
    ensures Unescape(rest).Some? ==> Unescape(Escape(s) + rest) == Some(s + Unescape(rest).value)
    ensures forall x :: x in Escape(s) ==> Unreserved(x) || x == PERCENT
  {
    hide EscapeByte, UnescapeByte, Unreserved;
    if s == [] {
      assert Escape(s) + rest == rest;
      assert Unescape(rest).Some? ==> s + Unescape(rest).value == Unescape(rest).value;
    } else {
      var head, tail := EscapeByte(s[0]), Escape(s[1..]);
      EscapedByte(s[0], tail + rest);
      UnescapeEscape(s[1..], rest);
      assert head + tail + rest == head + (tail + rest);
      assert (head + (tail + rest))[|head|..] == tail + rest;
      if Unescape(rest).Some? {
        assert s + Unescape(rest).value == [s[0]] + (s[1..] + Unescape(rest).value);
      }
    }
  }

  lemma EscapeRoundTrip(s: Bytes)
    ensures Unescape(Escape(s)) == Some(s)
    ensures SLASH !in Escape(s) && AMPERSAND !in Escape(s) && EQUALS !in Escape(s)
  {
    hide Escape;
    UnescapeEscape(s, []);
    assert Escape(s) + [] == Escape(s) && s + [] == s;
  }

  // ----- paths -----

  function EscapePath(p: Bytes): Bytes { Join<Byte>(Map<Bytes, Bytes>(Escape, Split<Byte>(p, SLASH)), SLASH) }

  method EscapeSegments(p: Bytes) returns (out: Bytes)
    ensures out == EscapePath(p)
  {
    hide Split, Join, Escape;
    var segs := Split<Byte>(p, SLASH);
    ghost var all := segs;
    for i := 0 to |segs|
      invariant |segs| == |all|
      invariant forall k :: 0 <= k < |segs| ==> segs[k] == if k < i then Escape(all[k]) else all[k]
    {
      var e := SigV4Escape(segs[i]);
      segs := segs[i := e];
    }
    assert segs == Map<Bytes, Bytes>(Escape, all);
    out := Join<Byte>(segs, SLASH);
  }

  lemma SlashIsItself(rest: Bytes)
    ensures Unescape([SLASH] + rest) == if Unescape(rest).Some? then Some([SLASH] + Unescape(rest).value) else None
  {
    assert ([SLASH] + rest)[1..] == rest;
  }

  lemma {:induction false} UnescapeJoined(parts: seq<Bytes>)
    ensures Unescape(Join<Byte>(Map<Bytes, Bytes>(Escape, parts), SLASH)) == Some(Join<Byte>(parts, SLASH))
  {
    hide Escape, Unescape;
    if |parts| == 0 {
      EscapeRoundTrip([]);
      NothingEscaped();
    } else if |parts| == 1 {
      EscapeRoundTrip(parts[0]);
    } else {
      UnescapeJoined(parts[1..]);
      assert Map<Bytes, Bytes>(Escape, parts)[1..] == Map<Bytes, Bytes>(Escape, parts[1..]);
      var rest := Join<Byte>(Map<Bytes, Bytes>(Escape, parts[1..]), SLASH);
      SlashIsItself(rest);
      UnescapeEscape(parts[0], [SLASH] + rest);
      assert Escape(parts[0]) + [SLASH] + rest == Escape(parts[0]) + ([SLASH] + rest);
      assert parts[0] + [SLASH] + Join<Byte>(parts[1..], SLASH) == parts[0] + ([SLASH] + Join<Byte>(parts[1..], SLASH));
    }
  }

  lemma PathParts(a: Bytes, b: Bytes)
    requires SLASH !in a
    ensures EscapePath(a) == Escape(a)
    ensures EscapePath(a + [SLASH] + b) == Escape(a) + [SLASH] + EscapePath(b)
  {
    hide Escape, Split;
    SplitOne(a, b, SLASH);
    var parts := Split<Byte>(b, SLASH);
    assert Map<Bytes, Bytes>(Escape, [a]) == [Escape(a)];
    assert Map<Bytes, Bytes>(Escape, [a] + parts) == [Escape(a)] + Map<Bytes, Bytes>(Escape, parts);
    assert ([Escape(a)] + Map<Bytes, Bytes>(Escape, parts))[1..] == Map<Bytes, Bytes>(Escape, parts);
  }

  lemma TextOfSum(a: Bytes, c: Byte, b: Bytes)
    ensures AsText(a + [c] + b) == AsText(a) + [Char(c)] + AsText(b)
  {
  }

  /** A path keeps its slashes, and each segment between them is escaped. */
  lemma PathText(a: Bytes, b: Bytes)
    requires SLASH !in a
    ensures AsText(EscapePath(a)) == AsText(Escape(a))
    ensures AsText(EscapePath(a + [SLASH] + b)) == AsText(Escape(a)) + "/" + AsText(EscapePath(b))
  {
    hide EscapePath, Escape, AsText;
    PathParts(a, b);
    TextOfSum(Escape(a), SLASH, EscapePath(b));
  }

  lemma NothingEscaped()
    ensures Escape([]) == [] && Unescape([]) == Some([])
  {
  }

  /** Unescaping a path gives it back, and its slashes are those of the original: segment by segment it is
      the escape of the original's segments. */
  lemma PathRoundTrip(p: Bytes)
    ensures Unescape(EscapePath(p)) == Some(p)
    ensures Split<Byte>(EscapePath(p), SLASH) == Map<Bytes, Bytes>(Escape, Split<Byte>(p, SLASH))
  {
    hide Escape, Unescape, Split, Join;
    var parts := Split<Byte>(p, SLASH);
    Text.JoinSplit(p, SLASH);
    UnescapeJoined(parts);
    forall i | 0 <= i < |parts|
      ensures SLASH !in Map<Bytes, Bytes>(Escape, parts)[i]
    {
      EscapeRoundTrip(parts[i]);
    }
    SplitJoin(Map<Bytes, Bytes>(Escape, parts), SLASH);
  }

  // ----- the canonical query -----

  type Values = map<Bytes, seq<Bytes>>

  /** url.Values.Get: the first value, or nothing. */
  function First(q: Values, k: Bytes): Bytes { if k in q && q[k] != [] then q[k][0] else [] }

  lemma FirstMeaning(q: Values, k: Bytes, v: Bytes, more: seq<Bytes>)
    ensures k in q && q[k] == [v] + more ==> First(q, k) == v
    ensures k !in q || q[k] == [] ==> First(q, k) == []
  {
  }

  function Pair(q: Values, k: Bytes): Bytes { Escape(k) + [EQUALS] + Escape(First(q, k)) }

  function Render(q: Values, keys: seq<Bytes>): Bytes { Join<Byte>(Map<Bytes, Bytes>((k: Bytes) => Pair(q, k), keys), AMPERSAND) }

  function AsText(b: Bytes): string { seq(|b|, i requires 0 <= i < |b| => Char(b[i])) }

  predicate KeyOrder(a: Bytes, b: Bytes) { Lex.Le(AsText(a), AsText(b)) }

  /** Keys are ordered byte by byte: by the first byte that differs, and a prefix comes first. */
  lemma KeyOrderMeaning(a: Bytes, b: Bytes)
    ensures KeyOrder(a, b) <==>
            a <= b || exists i :: 0 <= i < |a| && i < |b| && a[..i] == b[..i] && (a[i] as int) < (b[i] as int)
  {
    hide AsText, Lex.Le;
    Lex.FirstDifference(AsText(a), AsText(b));
    TextOf(a);
    TextOf(b);
    if AsText(a) <= AsText(b) {
      forall i | 0 <= i < |a|
        ensures a[i] == b[i]
      {
        assert AsText(a)[i] == AsText(b)[i];
        SameByte(a[i], b[i]);
      }
    }
    forall i | 0 <= i < |a| && i < |b|
      ensures AsText(a)[..i] == AsText(b)[..i] <==> a[..i] == b[..i]
      ensures AsText(a)[i] < AsText(b)[i] <==> (a[i] as int) < (b[i] as int)
    {
      SameFront(a, b, i);
    }
    if i: nat :| Lex.Differ(AsText(a), AsText(b), i) {
      assert a[..i] == b[..i] && (a[i] as int) < (b[i] as int);
    }
    if i :| 0 <= i < |a| && i < |b| && a[..i] == b[..i] && (a[i] as int) < (b[i] as int) {
      assert Lex.Differ(AsText(a), AsText(b), i);
    }
  }

  lemma TextOf(a: Bytes)
    ensures |AsText(a)| == |a| && forall i :: 0 <= i < |a| ==> AsText(a)[i] == Char(a[i])
  {
  }

  lemma SameByte(x: Byte, y: Byte)
    requires Char(x) == Char(y)
    ensures x == y
  {
    assert Char(x) as int == Char(y) as int;
  }

  lemma SameFront(a: Bytes, b: Bytes, i: nat)
    requires i <= |a| && i <= |b|
    ensures AsText(a)[..i] == AsText(b)[..i] <==> a[..i] == b[..i]
  {
    hide AsText;
    TextOf(a);
    TextOf(b);
    if AsText(a)[..i] == AsText(b)[..i] {
      forall k | 0 <= k < i
        ensures a[k] == b[k]
      {
        assert AsText(a)[k] == AsText(a)[..i][k] == AsText(b)[..i][k] == AsText(b)[k];
        SameByte(a[k], b[k]);
      }
    }
    if a[..i] == b[..i] {
      forall k | 0 <= k < i
        ensures AsText(a)[k] == AsText(b)[k]
      {
        assert a[k] == a[..i][k] == b[..i][k] == b[k];
      }
    }
  }

  lemma AsTextInjective(a: Bytes, b: Bytes)
    requires AsText(a) == AsText(b)
    ensures a == b
  {
    assert |a| == |AsText(a)| == |b|;
    forall i | 0 <= i < |a|
      ensures a[i] == b[i]
    {
      assert Char(a[i]) == AsText(a)[i] == AsText(b)[i] == Char(b[i]);
      assert Char(a[i]) as int == Char(b[i]) as int;
    }
  }

  /** The keys of q, each once, in order. */
  ghost predicate KeyList(q: Values, keys: seq<Bytes>) {
    Sorted(KeyOrder, keys) && forall k :: multiset(keys)[k] == if k in q then 1 else 0
  }

  lemma KeyOrderIsPreorder()
    ensures TotalPreorder(KeyOrder)
    ensures forall a: Bytes, b: Bytes :: Ties(KeyOrder, a, b) ==> a == b
  {
    hide Lex.Le, AsText;
    forall a: Bytes, b: Bytes
      ensures KeyOrder(a, a) && (KeyOrder(a, b) || KeyOrder(b, a))
      ensures Ties(KeyOrder, a, b) ==> a == b
    {
      Lex.Reflexive(AsText(a));
      Lex.Total(AsText(a), AsText(b));
      if Ties(KeyOrder, a, b) {
        Lex.Antisymmetric(AsText(a), AsText(b));
        AsTextInjective(a, b);
      }
    }
    forall a: Bytes, b: Bytes, c: Bytes | KeyOrder(a, b) && KeyOrder(b, c)
      ensures KeyOrder(a, c)
    {
      Lex.Transitive(AsText(a), AsText(b), AsText(c));
    }
  }

  /** There is one key list, so the order in which the map is walked cannot show in the query. */
  lemma KeyListIsUnique(q: Values, a: seq<Bytes>, b: seq<Bytes>)
    requires KeyList(q, a) && KeyList(q, b)
    ensures a == b
  {
    hide KeyOrder;
    KeyOrderIsPreorder();
    assert multiset(a) == multiset(b);
    SameSorted(KeyOrder, a, b);
  }

  method SortedKeys(q: Values) returns (keys: seq<Bytes>)
    ensures KeyList(q, keys)
  {
    hide KeyOrder;
    keys := [];
    var left := q.Keys;
    while left != {}
      invariant left <= q.Keys
      invariant forall k :: multiset(keys)[k] == if k in q && k !in left then 1 else 0
      decreases left
    {
      var k :| k in left;
      left := left - {k};
      keys := keys + [k];
    }
    KeyOrderIsPreorder();
    SortIsStable(KeyOrder, keys);
    SortKeeps(KeyOrder, keys);
    keys := Sort(KeyOrder, keys);
  }

  method CanonicalQueryString(q: Values) returns (out: Bytes)
    ensures exists keys :: KeyList(q, keys) && out == Render(q, keys)
  {
    hide Escape, Join, KeyList, First;
    var keys := SortedKeys(q);
    var parts: seq<Bytes> := [];
    ghost var pair := (k: Bytes) => Pair(q, k);
    for i := 0 to |keys|
      invariant parts == Map<Bytes, Bytes>(pair, keys[..i])
    {
      var name := SigV4Escape(keys[i]);
      var value := SigV4Escape(First(q, keys[i]));
      MapPush(pair, keys[..i], keys[i]);
      assert keys[..i + 1] == keys[..i] + [keys[i]];
      parts := parts + [name + [EQUALS] + value];
    }
    assert keys[..|keys|] == keys;
    out := Join<Byte>(parts, AMPERSAND);
    assert Map<Bytes, Bytes>(pair, keys) == Map<Bytes, Bytes>((k: Bytes) => Pair(q, k), keys);
  }

  /** Reading a query back into names and values. */
  function ParsePair(part: Bytes): Option<(Bytes, Bytes)> {
    var kv := Split<Byte>(part, EQUALS);
    if |kv| != 2 then None
    else
      match (Unescape(kv[0]), Unescape(kv[1]))
      case (Some(k), Some(v)) => Some((k, v))
      case _ => None
  }

  function ParseQuery(s: Bytes): seq<Option<(Bytes, Bytes)>> {
    if s == [] then [] else Map<Bytes, Option<(Bytes, Bytes)>>(ParsePair, Split<Byte>(s, AMPERSAND))
  }

  /** What the query looks like: name=value, with & between the pairs. */
  lemma QueryText(q: Values, k: Bytes, rest: seq<Bytes>)
    ensures AsText(Render(q, [k])) == AsText(Escape(k)) + "=" + AsText(Escape(First(q, k)))
    ensures rest != [] ==> AsText(Render(q, [k] + rest)) == AsText(Render(q, [k])) + "&" + AsText(Render(q, rest))
  {
    hide Escape, First;
    var pair := (x: Bytes) => Pair(q, x);
    assert Map<Bytes, Bytes>(pair, [k]) == [Pair(q, k)];
    assert Map<Bytes, Bytes>(pair, [k] + rest) == [Pair(q, k)] + Map<Bytes, Bytes>(pair, rest);
    assert ([Pair(q, k)] + Map<Bytes, Bytes>(pair, rest))[1..] == Map<Bytes, Bytes>(pair, rest);
  }

  lemma PairParses(q: Values, k: Bytes)
    ensures ParsePair(Pair(q, k)) == Some((k, First(q, k)))
    ensures AMPERSAND !in Pair(q, k) && Pair(q, k) != []
  {
    hide Escape, Unescape, First, Split;
    EscapeRoundTrip(k);
    EscapeRoundTrip(First(q, k));
    SplitOne(Escape(k), Escape(First(q, k)), EQUALS);
    SplitOne(Escape(First(q, k)), [], EQUALS);
  }

  /** The canonical query reads back as exactly the keys in order, each with the value Get returns. */
  lemma QueryRoundTrip(q: Values, keys: seq<Bytes>)
    ensures ParseQuery(Render(q, keys)) == Map((k: Bytes) => Some((k, First(q, k))), keys)
  {
    hide Split, Join, ParsePair, Pair, First;
    var parts := Map<Bytes, Bytes>((k: Bytes) => Pair(q, k), keys);
    forall i | 0 <= i < |keys|
      ensures ParsePair(parts[i]) == Some((keys[i], First(q, keys[i]))) && AMPERSAND !in parts[i] && parts[i] != []
    {
      PairParses(q, keys[i]);
    }
    JoinedIsEmpty(parts);
    if keys != [] {
      SplitJoin(parts, AMPERSAND);
    }
  }

  lemma JoinedIsEmpty(parts: seq<Bytes>)
    ensures parts == [] ==> Join<Byte>(parts, AMPERSAND) == []
    ensures parts != [] && parts[0] != [] ==> Join<Byte>(parts, AMPERSAND) != []
  {
  }

  /** Equal canonical queries come from values that agree on every key. */
  lemma QueryIsInjective(q: Values, p: Values, a: seq<Bytes>, b: seq<Bytes>)
    requires KeyList(q, a) && KeyList(p, b) && Render(q, a) == Render(p, b)
    ensures q.Keys == p.Keys && forall k :: First(q, k) == First(p, k)
  {
    hide Render, ParseQuery;
    QueryRoundTrip(q, a);
    QueryRoundTrip(p, b);
    var x, y := Map((k: Bytes) => Some((k, First(q, k))), a), Map((k: Bytes) => Some((k, First(p, k))), b);
    assert |a| == |x| == |y| == |b|;
    forall i | 0 <= i < |a|
      ensures a[i] == b[i] && First(q, a[i]) == First(p, a[i])
    {
      assert x[i] == Some((a[i], First(q, a[i]))) && y[i] == Some((b[i], First(p, b[i])));
    }
    assert a == b;
    forall k
      ensures k in q <==> k in p
      ensures First(q, k) == First(p, k)
    {
      assert k in q <==> k in multiset(a);
      assert k in p <==> k in multiset(a);
      if k in q {
        var i :| 0 <= i < |a| && a[i] == k;
      }
    }
  }
}
