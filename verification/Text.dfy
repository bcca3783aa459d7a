/** strings.Split and strings.Join on a one-character separator. */
module Text {
  const CAPITALS: string := "ABCDEFGHIJKLMNOPQRSTUVWXYZ"
  const SMALL: string := "abcdefghijklmnopqrstuvwxyz"
  const DIGITS: string := "0123456789"

  lemma Letter(k: nat)
    requires k < 26
    ensures CAPITALS[k] as int == 65 + k && SMALL[k] as int == 97 + k
  {
  }

  lemma Digit(k: nat)
    requires k < 10
    ensures DIGITS[k] as int == 48 + k
  {
  }

  /** Letters and digits are where the character codes have them. */
  lemma Alphabets(c: char)
    ensures c in CAPITALS <==> 'A' <= c <= 'Z'
    ensures c in SMALL <==> 'a' <= c <= 'z'
    ensures c in DIGITS <==> '0' <= c <= '9'
  {
    if 'A' <= c <= 'Z' { Letter((c - 'A') as int); }
    if 'a' <= c <= 'z' { Letter((c - 'a') as int); }
    if '0' <= c <= '9' { Digit((c - '0') as int); }
    if k :| 0 <= k < 26 && CAPITALS[k] == c { Letter(k); }
    if k :| 0 <= k < 26 && SMALL[k] == c { Letter(k); }
    if k :| 0 <= k < 10 && DIGITS[k] == c { Digit(k); }
  }

  /** The pieces between separators; always at least one. */
  function Split<C(==)>(s: seq<C>, sep: C): (r: seq<seq<C>>)
    ensures r != []
  {
    if s == [] then [[]]
    else
      var rest := Split(s[1..], sep);
      if s[0] == sep then [[]] + rest else [[s[0]] + rest[0]] + rest[1..]
  }

  function Join<C>(parts: seq<seq<C>>, sep: C): seq<C> {
    if |parts| == 0 then [] else if |parts| == 1 then parts[0] else parts[0] + [sep] + Join(parts[1..], sep)
  }

  lemma {:induction false} JoinHead<C>(c: C, parts: seq<seq<C>>, sep: C)
    requires parts != []
    ensures Join([[c] + parts[0]] + parts[1..], sep) == [c] + Join(parts, sep)
  {
    var more := [[c] + parts[0]] + parts[1..];
    if |parts| > 1 {
      assert more[1..] == parts[1..];
    }
  }

  lemma {:induction false} SplitParts<C>(s: seq<C>, sep: C)
    ensures forall i :: 0 <= i < |Split(s, sep)| ==> sep !in Split(s, sep)[i]
  {
    if s != [] {
      SplitParts(s[1..], sep);
    }
  }

  lemma {:induction false} JoinSplit<C>(s: seq<C>, sep: C)
    ensures Join(Split(s, sep), sep) == s
  {
    if s != [] {
      var rest := Split(s[1..], sep);
      JoinSplit(s[1..], sep);
      assert s == [s[0]] + s[1..];
      if s[0] == sep {
        assert ([[]] + rest)[1..] == rest;
      } else {
        JoinHead(s[0], rest, sep);
      }
    }
  }

  lemma {:induction false} SplitOne<C>(a: seq<C>, b: seq<C>, sep: C)
    requires sep !in a
    ensures Split(a, sep) == [a]
    ensures Split(a + [sep] + b, sep) == [a] + Split(b, sep)
  {
    var s := a + [sep] + b;
    if a == [] {
      assert s[1..] == b;
    } else {
      SplitOne(a[1..], b, sep);
      assert s[1..] == a[1..] + [sep] + b && a == [a[0]] + a[1..];
      assert ([a[1..]] + Split(b, sep))[1..] == Split(b, sep);
    }
  }

  lemma {:induction false} SplitJoin<C>(parts: seq<seq<C>>, sep: C)
    requires parts != [] && forall i :: 0 <= i < |parts| ==> sep !in parts[i]
    ensures Split(Join(parts, sep), sep) == parts
  {
    if |parts| == 1 {
      SplitOne(parts[0], [], sep);
    } else {
      SplitJoin(parts[1..], sep);
      SplitOne(parts[0], Join(parts[1..], sep), sep);
      assert parts == [parts[0]] + parts[1..];
    }
  }
}
