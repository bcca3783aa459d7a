/**
 Where the constants of SHA-256 come from: the words of section 4.2.2 of FIPS
 180-4 are the first 32 bits of the fractional parts of the cube roots of the
 first 64 primes, and the initial hash value of section 5.3.3 those of the
 square roots of the first eight.
 */
module FipsConstants {
  import opened Fips180

  // --- the first 64 primes ------------------------------------------------------

  ghost predicate IsPrime(n: nat) { n >= 2 && forall d :: 2 <= d < n ==> n % d != 0 }

  const PRIMES: seq<nat> :=
    [2, 3, 5, 7, 11, 13, 17, 19] +
    [23, 29, 31, 37, 41, 43, 47, 53] +
    [59, 61, 67, 71, 73, 79, 83, 89] +
    [97, 101, 103, 107, 109, 113, 127, 131] +
    [137, 139, 149, 151, 157, 163, 167, 173] +
    [179, 181, 191, 193, 197, 199, 211, 223] +
    [227, 229, 233, 239, 241, 251, 257, 263] +
    [269, 271, 277, 281, 283, 293, 307, 311]

  /** One of the primes below the root of 361 strikes n out. */
  predicate Struck(n: nat) {
    n % 2 == 0 || n % 3 == 0 || n % 5 == 0 || n % 7 == 0 || n % 11 == 0 || n % 13 == 0 || n % 17 == 0
  }

  /** Every number between lo and hi is struck out. */
  predicate Gap(lo: nat, hi: nat)
    decreases hi - lo
  {
    lo + 1 >= hi || (Struck(lo + 1) && Gap(lo + 1, hi))
  }

  lemma Multiple(n: nat, x: nat, q: nat)
    requires x > 0 && n == x * q
    ensures n % x == 0
  {
    var k := q - n / x;
    assert x * k == n % x;
    Apart(x, k);
  }

  lemma Apart(x: nat, k: int)
    ensures k == 0 || x * k + x <= 0 || x <= x * k
  {
    if k > 0 {
      assert x * (k - 1) >= 0;
    } else if k < 0 {
      assert x * (-k - 1) >= 0;
    }
  }

  lemma DivisorOfDivisor(n: nat, x: nat, d: nat)
    requires x > 0 && d > 0 && n % x == 0 && x % d == 0
    ensures n % d == 0
  {
    var q, y := n / x, x / d;
    assert n == x * q && x == d * y;
    assert n == d * (y * q);
    Multiple(n, d, y * q);
  }

  lemma StruckBySmall(n: nat, x: nat)
    requires 2 <= x <= 18 && n % x == 0
    ensures Struck(n)
  {
    var d := if x % 2 == 0 then 2 else if x % 3 == 0 then 3 else if x % 5 == 0 then 5 else x;
    DivisorOfDivisor(n, x, d);
  }

  /** One of two factors of a number below 361 is at most 18. */
  lemma LargeProduct(x: nat, q: nat)
    requires x >= 19 && q >= 19
    ensures x * q >= 361
  {
  }

  /** Trial division by the primes up to 17 decides primality below 361. */
  lemma TrialDivision(n: nat)
    requires 17 < n < 361
    ensures IsPrime(n) <==> !Struck(n)
  {
    if !Struck(n) {
      hide Struck;
      forall x | 2 <= x < n
        ensures n % x != 0
      {
        NoFactor(n, x);
      }
    }
  }

  lemma NoFactor(n: nat, x: nat)
    requires 17 < n < 361 && !Struck(n) && 2 <= x < n
    ensures n % x != 0
  {
    hide Struck;
    if n % x == 0 {
      var q := n / x;
      assert n == x * q;
      Multiple(n, q, x);
      if x <= 18 {
        StruckBySmall(n, x);
      } else if q <= 18 {
        StruckBySmall(n, q);
      } else {
        LargeProduct(x, q);
      }
    }
  }

  /** q is the next prime after p. */
  ghost predicate Successor(p: nat, q: nat) {
    p < q && IsPrime(q) && forall n :: p < n < q ==> !IsPrime(n)
  }

  lemma {:induction false} GapMeaning(lo: nat, hi: nat)
    requires 17 <= lo && hi < 361 && Gap(lo, hi)
    ensures forall n :: lo < n < hi ==> !IsPrime(n)
    decreases hi - lo
  {
    hide IsPrime, Struck;
    if lo + 1 < hi {
      TrialDivision(lo + 1);
      GapMeaning(lo + 1, hi);
    }
  }

  lemma NextPrime(p: nat, q: nat)
    requires 17 <= p < q < 361 && Gap(p, q) && !Struck(q)
    ensures Successor(p, q)
  {
    hide IsPrime, Struck, Gap;
    TrialDivision(q);
    GapMeaning(p, q);
  }

  /** ps is the list of all primes up to its last, in increasing order. */
  ghost predicate LeadingPrimes(ps: seq<nat>) {
    && (forall i, j :: 0 <= i < j < |ps| ==> ps[i] < ps[j])
    && (forall p :: p in ps ==> IsPrime(p))
    && (forall n :: |ps| > 0 && IsPrime(n) && n <= ps[|ps| - 1] ==> n in ps)
  }

  /** A list that starts with 2 and goes from each prime to the next is that list. */
  lemma {:induction false} SuccessorsLead(ps: seq<nat>)
    requires |ps| > 0 && ps[0] == 2
    requires forall i :: 0 < i < |ps| ==> Successor(ps[i - 1], ps[i])
    ensures LeadingPrimes(ps)
  {
    hide IsPrime;
    var last := |ps| - 1;
    if last == 0 {
      TwoIsFirst();
    } else {
      var shorter := ps[..last];
      forall i | 0 < i < last
        ensures Successor(shorter[i - 1], shorter[i])
      {
        assert Successor(ps[i - 1], ps[i]);
      }
      SuccessorsLead(shorter);
      assert Successor(ps[last - 1], ps[last]);
      assert ps == shorter + [ps[last]];
    }
  }

  lemma TwoIsFirst()
    ensures IsPrime(2) && forall n: nat :: n < 2 ==> !IsPrime(n)
  {
  }

  lemma Primes0()
    ensures forall i :: 0 < i < 8 ==> Successor(PRIMES[i - 1], PRIMES[i])
  {
    assert 4 % 2 == 0 && 6 % 2 == 0 && 8 % 2 == 0 && 9 % 3 == 0 && 10 % 2 == 0;
    assert 12 % 2 == 0 && 14 % 2 == 0 && 15 % 3 == 0 && 16 % 2 == 0;
    NextPrime(17, 19);
  }

  lemma Primes1()
    ensures forall i :: 8 <= i < 16 ==> Successor(PRIMES[i - 1], PRIMES[i])
  {
    hide IsPrime, Successor;
    NextPrime(19, 23);
    NextPrime(23, 29);
    NextPrime(29, 31);
    NextPrime(31, 37);
    NextPrime(37, 41);
    NextPrime(41, 43);
    NextPrime(43, 47);
    NextPrime(47, 53);
  }

  lemma Primes2()
    ensures forall i :: 16 <= i < 24 ==> Successor(PRIMES[i - 1], PRIMES[i])
  {
    hide IsPrime, Successor;
    NextPrime(53, 59);
    NextPrime(59, 61);
    NextPrime(61, 67);
    NextPrime(67, 71);
    NextPrime(71, 73);
    NextPrime(73, 79);
    NextPrime(79, 83);
    NextPrime(83, 89);
  }

  lemma Primes3()
    ensures forall i :: 24 <= i < 32 ==> Successor(PRIMES[i - 1], PRIMES[i])
  {
    hide IsPrime, Successor;
    NextPrime(89, 97);
    NextPrime(97, 101);
    NextPrime(101, 103);
    NextPrime(103, 107);
    NextPrime(107, 109);
    NextPrime(109, 113);
    NextPrime(113, 127);
    NextPrime(127, 131);
  }

  lemma Primes4()
    ensures forall i :: 32 <= i < 40 ==> Successor(PRIMES[i - 1], PRIMES[i])
  {
    hide IsPrime, Successor;
    NextPrime(131, 137);
    NextPrime(137, 139);
    NextPrime(139, 149);
    NextPrime(149, 151);
    NextPrime(151, 157);
    NextPrime(157, 163);
    NextPrime(163, 167);
    NextPrime(167, 173);
  }

  lemma Primes5()
    ensures forall i :: 40 <= i < 48 ==> Successor(PRIMES[i - 1], PRIMES[i])
  {
    hide IsPrime, Successor;
    NextPrime(173, 179);
    NextPrime(179, 181);
    NextPrime(181, 191);
    NextPrime(191, 193);
    NextPrime(193, 197);
    NextPrime(197, 199);
    NextPrime(199, 211);
    NextPrime(211, 223);
  }

  lemma Primes6()
    ensures forall i :: 48 <= i < 56 ==> Successor(PRIMES[i - 1], PRIMES[i])
  {
    hide IsPrime, Successor;
    NextPrime(223, 227);
    NextPrime(227, 229);
    NextPrime(229, 233);
    NextPrime(233, 239);
    NextPrime(239, 241);
    NextPrime(241, 251);
    NextPrime(251, 257);
    NextPrime(257, 263);
  }

  lemma Primes7()
    ensures forall i :: 56 <= i < 64 ==> Successor(PRIMES[i - 1], PRIMES[i])
  {
    hide IsPrime, Successor;
    NextPrime(263, 269);
    NextPrime(269, 271);
    NextPrime(271, 277);
    NextPrime(277, 281);
    NextPrime(281, 283);
    NextPrime(283, 293);
    NextPrime(293, 307);
    NextPrime(307, 311);
  }

  lemma FirstPrimes()
    ensures |PRIMES| == 64 && LeadingPrimes(PRIMES)
  {
    hide IsPrime, Successor;
    Primes0(); Primes1(); Primes2(); Primes3(); Primes4(); Primes5(); Primes6(); Primes7();
    SuccessorsLead(PRIMES);
  }

  // --- the fractional parts of their roots ------------------------------------------

  const TWO_32: nat := 0x1_0000_0000
  const TWO_64: nat := 0x1_0000_0000_0000_0000
  const TWO_96: nat := 0x1_0000_0000_0000_0000_0000_0000

  /** With whole part w, the cube root of p starts with the 32 fractional bits k. */
  predicate CubeRoot(p: nat, w: nat, k: nat) {
    var c := w * TWO_32 + k;
    k < TWO_32 && c * c * c <= p * TWO_96 < (c + 1) * (c + 1) * (c + 1)
  }

  predicate SquareRoot(p: nat, w: nat, k: nat) {
    var c := w * TWO_32 + k;
    k < TWO_32 && c * c <= p * TWO_64 < (c + 1) * (c + 1)
  }

  /** k is the first 32 bits of the fractional part of the cube root of p. */
  ghost predicate CubeFraction(p: nat, k: nat) { exists w: nat :: CubeRoot(p, w, k) }

  ghost predicate SquareFraction(p: nat, k: nat) { exists w: nat :: SquareRoot(p, w, k) }

  lemma CubeEntry(p: nat, w: nat, k: nat)
    requires CubeRoot(p, w, k)
    ensures CubeFraction(p, k)
  {
    hide CubeRoot;
  }

  lemma SquareEntry(p: nat, w: nat, k: nat)
    requires SquareRoot(p, w, k)
    ensures SquareFraction(p, k)
  {
    hide SquareRoot;
  }

  /** The i-th constant as a number. */
  function Constant(i: nat): nat
    requires i < |K|
  {
    K[i] as nat
  }

  lemma Words0()
    ensures |K| == 64
    ensures Constant(0) == 0x428a2f98 && Constant(1) == 0x71374491
    ensures Constant(2) == 0xb5c0fbcf && Constant(3) == 0xe9b5dba5
    ensures Constant(4) == 0x3956c25b && Constant(5) == 0x59f111f1
    ensures Constant(6) == 0x923f82a4 && Constant(7) == 0xab1c5ed5
  {
  }

  lemma CubeRoots0()
    ensures |PRIMES| == |K| == 64 && forall i :: 0 <= i < 8 ==> CubeFraction(PRIMES[i], Constant(i))
  {
    hide CubeFraction, Constant;
    Words0();
    CubeEntry(2, 1, 0x428a2f98);
    CubeEntry(3, 1, 0x71374491);
    CubeEntry(5, 1, 0xb5c0fbcf);
    CubeEntry(7, 1, 0xe9b5dba5);
    CubeEntry(11, 2, 0x3956c25b);
    CubeEntry(13, 2, 0x59f111f1);
    CubeEntry(17, 2, 0x923f82a4);
    CubeEntry(19, 2, 0xab1c5ed5);
  }

  lemma Words1()
    ensures |K| == 64
    ensures Constant(8) == 0xd807aa98 && Constant(9) == 0x12835b01
    ensures Constant(10) == 0x243185be && Constant(11) == 0x550c7dc3
    ensures Constant(12) == 0x72be5d74 && Constant(13) == 0x80deb1fe
    ensures Constant(14) == 0x9bdc06a7 && Constant(15) == 0xc19bf174
  {
  }

  lemma CubeRoots1()
    ensures |PRIMES| == |K| == 64 && forall i :: 8 <= i < 16 ==> CubeFraction(PRIMES[i], Constant(i))
  {
    hide CubeFraction, Constant;
    Words1();
    CubeEntry(23, 2, 0xd807aa98);
    CubeEntry(29, 3, 0x12835b01);
    CubeEntry(31, 3, 0x243185be);
    CubeEntry(37, 3, 0x550c7dc3);
    CubeEntry(41, 3, 0x72be5d74);
    CubeEntry(43, 3, 0x80deb1fe);
    CubeEntry(47, 3, 0x9bdc06a7);
    CubeEntry(53, 3, 0xc19bf174);
  }

  lemma Words2()
    ensures |K| == 64
    ensures Constant(16) == 0xe49b69c1 && Constant(17) == 0xefbe4786
    ensures Constant(18) == 0x0fc19dc6 && Constant(19) == 0x240ca1cc
    ensures Constant(20) == 0x2de92c6f && Constant(21) == 0x4a7484aa
    ensures Constant(22) == 0x5cb0a9dc && Constant(23) == 0x76f988da
  {
  }

  lemma CubeRoots2()
    ensures |PRIMES| == |K| == 64 && forall i :: 16 <= i < 24 ==> CubeFraction(PRIMES[i], Constant(i))
  {
    hide CubeFraction, Constant;
    Words2();
    CubeEntry(59, 3, 0xe49b69c1);
    CubeEntry(61, 3, 0xefbe4786);
    CubeEntry(67, 4, 0x0fc19dc6);
    CubeEntry(71, 4, 0x240ca1cc);
    CubeEntry(73, 4, 0x2de92c6f);
    CubeEntry(79, 4, 0x4a7484aa);
    CubeEntry(83, 4, 0x5cb0a9dc);
    CubeEntry(89, 4, 0x76f988da);
  }

  lemma Words3()
    ensures |K| == 64
    ensures Constant(24) == 0x983e5152 && Constant(25) == 0xa831c66d
    ensures Constant(26) == 0xb00327c8 && Constant(27) == 0xbf597fc7
    ensures Constant(28) == 0xc6e00bf3 && Constant(29) == 0xd5a79147
    ensures Constant(30) == 0x06ca6351 && Constant(31) == 0x14292967
  {
  }

  lemma CubeRoots3()
    ensures |PRIMES| == |K| == 64 && forall i :: 24 <= i < 32 ==> CubeFraction(PRIMES[i], Constant(i))
  {
    hide CubeFraction, Constant;
    Words3();
    CubeEntry(97, 4, 0x983e5152);
    CubeEntry(101, 4, 0xa831c66d);
    CubeEntry(103, 4, 0xb00327c8);
    CubeEntry(107, 4, 0xbf597fc7);
    CubeEntry(109, 4, 0xc6e00bf3);
    CubeEntry(113, 4, 0xd5a79147);
    CubeEntry(127, 5, 0x06ca6351);
    CubeEntry(131, 5, 0x14292967);
  }

  lemma Words4()
    ensures |K| == 64
    ensures Constant(32) == 0x27b70a85 && Constant(33) == 0x2e1b2138
    ensures Constant(34) == 0x4d2c6dfc && Constant(35) == 0x53380d13
    ensures Constant(36) == 0x650a7354 && Constant(37) == 0x766a0abb
    ensures Constant(38) == 0x81c2c92e && Constant(39) == 0x92722c85
  {
  }

  lemma CubeRoots4()
    ensures |PRIMES| == |K| == 64 && forall i :: 32 <= i < 40 ==> CubeFraction(PRIMES[i], Constant(i))
  {
    hide CubeFraction, Constant;
    Words4();
    CubeEntry(137, 5, 0x27b70a85);
    CubeEntry(139, 5, 0x2e1b2138);
    CubeEntry(149, 5, 0x4d2c6dfc);
    CubeEntry(151, 5, 0x53380d13);
    CubeEntry(157, 5, 0x650a7354);
    CubeEntry(163, 5, 0x766a0abb);
    CubeEntry(167, 5, 0x81c2c92e);
    CubeEntry(173, 5, 0x92722c85);
  }

  lemma Words5()
    ensures |K| == 64
    ensures Constant(40) == 0xa2bfe8a1 && Constant(41) == 0xa81a664b
    ensures Constant(42) == 0xc24b8b70 && Constant(43) == 0xc76c51a3
    ensures Constant(44) == 0xd192e819 && Constant(45) == 0xd6990624
    ensures Constant(46) == 0xf40e3585 && Constant(47) == 0x106aa070
  {
  }

  lemma CubeRoots5()
    ensures |PRIMES| == |K| == 64 && forall i :: 40 <= i < 48 ==> CubeFraction(PRIMES[i], Constant(i))
  {
    hide CubeFraction, Constant;
    Words5();
    CubeEntry(179, 5, 0xa2bfe8a1);
    CubeEntry(181, 5, 0xa81a664b);
    CubeEntry(191, 5, 0xc24b8b70);
    CubeEntry(193, 5, 0xc76c51a3);
    CubeEntry(197, 5, 0xd192e819);
    CubeEntry(199, 5, 0xd6990624);
    CubeEntry(211, 5, 0xf40e3585);
    CubeEntry(223, 6, 0x106aa070);
  }

  lemma Words6()
    ensures |K| == 64
    ensures Constant(48) == 0x19a4c116 && Constant(49) == 0x1e376c08
    ensures Constant(50) == 0x2748774c && Constant(51) == 0x34b0bcb5
    ensures Constant(52) == 0x391c0cb3 && Constant(53) == 0x4ed8aa4a
    ensures Constant(54) == 0x5b9cca4f && Constant(55) == 0x682e6ff3
  {
  }

  lemma CubeRoots6()
    ensures |PRIMES| == |K| == 64 && forall i :: 48 <= i < 56 ==> CubeFraction(PRIMES[i], Constant(i))
  {
    hide CubeFraction, Constant;
    Words6();
    CubeEntry(227, 6, 0x19a4c116);
    CubeEntry(229, 6, 0x1e376c08);
    CubeEntry(233, 6, 0x2748774c);
    CubeEntry(239, 6, 0x34b0bcb5);
    CubeEntry(241, 6, 0x391c0cb3);
    CubeEntry(251, 6, 0x4ed8aa4a);
    CubeEntry(257, 6, 0x5b9cca4f);
    CubeEntry(263, 6, 0x682e6ff3);
  }

  lemma Words7()
    ensures |K| == 64
    ensures Constant(56) == 0x748f82ee && Constant(57) == 0x78a5636f
    ensures Constant(58) == 0x84c87814 && Constant(59) == 0x8cc70208
    ensures Constant(60) == 0x90befffa && Constant(61) == 0xa4506ceb
    ensures Constant(62) == 0xbef9a3f7 && Constant(63) == 0xc67178f2
  {
  }

  lemma CubeRoots7()
    ensures |PRIMES| == |K| == 64 && forall i :: 56 <= i < 64 ==> CubeFraction(PRIMES[i], Constant(i))
  {
    hide CubeFraction, Constant;
    Words7();
    CubeEntry(269, 6, 0x748f82ee);
    CubeEntry(271, 6, 0x78a5636f);
    CubeEntry(277, 6, 0x84c87814);
    CubeEntry(281, 6, 0x8cc70208);
    CubeEntry(283, 6, 0x90befffa);
    CubeEntry(293, 6, 0xa4506ceb);
    CubeEntry(307, 6, 0xbef9a3f7);
    CubeEntry(311, 6, 0xc67178f2);
  }

  /** Section 4.2.2: the constants are the cube roots of the first 64 primes. */
  lemma RoundConstants()
    ensures |K| == 64 && LeadingPrimes(PRIMES) && |PRIMES| == 64
    ensures forall i :: 0 <= i < 64 ==> CubeFraction(PRIMES[i], K[i] as nat)
  {
    hide LeadingPrimes, CubeFraction;
    FirstPrimes();
    CubeRoots0(); CubeRoots1(); CubeRoots2(); CubeRoots3();
    CubeRoots4(); CubeRoots5(); CubeRoots6(); CubeRoots7();
  }

  /** Section 5.3.3: the initial hash value is the square roots of the first eight primes. */
  lemma InitialValue()
    ensures LeadingPrimes(PRIMES) && |PRIMES| == 64
    ensures var v := INITIAL; var words := [v.a, v.b, v.c, v.d, v.e, v.f, v.g, v.h];
      forall i :: 0 <= i < 8 ==> SquareFraction(PRIMES[i], words[i] as nat)
  {
    hide LeadingPrimes, SquareFraction;
    FirstPrimes();
    SquareEntry(2, 1, 0x6a09e667);
    SquareEntry(3, 1, 0xbb67ae85);
    SquareEntry(5, 2, 0x3c6ef372);
    SquareEntry(7, 2, 0xa54ff53a);
    SquareEntry(11, 3, 0x510e527f);
    SquareEntry(13, 3, 0x9b05688c);
    SquareEntry(17, 4, 0x1f83d9ab);
    SquareEntry(19, 4, 0x5be0cd19);
  }

  lemma CubesGrow(x: nat, y: nat)
    requires x < y
    ensures (x + 1) * (x + 1) * (x + 1) <= y * y * y
  {
    Product(x + 1, y, x + 1, y);
    Product((x + 1) * (x + 1), y * y, x + 1, y);
  }

  lemma Product(a: nat, b: nat, c: nat, d: nat)
    requires a <= b && c <= d
    ensures a * c <= b * d
  {
    assert a * c <= b * c <= b * d;
  }

  /** A prime has only one such word. */
  lemma FractionIsUnique(p: nat, k: nat, l: nat)
    requires CubeFraction(p, k) && CubeFraction(p, l)
    ensures k == l
  {
    var v: nat :| CubeRoot(p, v, k);
    var w: nat :| CubeRoot(p, w, l);
    RootIsUnique(p, v, k, w, l);
  }

  lemma RootIsUnique(p: nat, v: nat, m: nat, w: nat, n: nat)
    requires CubeRoot(p, v, m) && CubeRoot(p, w, n)
    ensures m == n
  {
    var c, d := v * TWO_32 + m, w * TWO_32 + n;
    if c < d {
      CubesGrow(c, d);
    } else if d < c {
      CubesGrow(d, c);
    }
  }
}
