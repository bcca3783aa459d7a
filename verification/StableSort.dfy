/** Go's string order: lexicographic, a prefix before its extensions. */
module Lex {
  predicate Le(a: string, b: string) {
    a == "" || (b != "" && (a[0] < b[0] || (a[0] == b[0] && Le(a[1..], b[1..]))))
  }

  /** The first difference decides. */
  ghost predicate Differ(a: string, b: string, i: nat) { i < |a| && i < |b| && a[..i] == b[..i] && a[i] < b[i] }

  /** One string is at most another when it is a prefix of it or smaller where they first differ. */
  lemma {:induction false} FirstDifference(a: string, b: string)
    ensures Le(a, b) <==> a <= b || exists i: nat :: Differ(a, b, i)
  {
    if a != "" && b != "" {
      if a[0] == b[0] {
        FirstDifference(a[1..], b[1..]);
        PrefixTail(a, b);
        if i: nat :| Differ(a[1..], b[1..], i) {
          assert a[..i + 1] == [a[0]] + a[1..][..i] && b[..i + 1] == [b[0]] + b[1..][..i];
          assert Differ(a, b, i + 1);
        }
        if i: nat :| Differ(a, b, i) {
          assert a[..i][1..] == a[1..][..i - 1] && b[..i][1..] == b[1..][..i - 1];
          assert Differ(a[1..], b[1..], i - 1);
        }
      } else if a[0] < b[0] {
        assert Differ(a, b, 0);
      } else {
        forall i: nat | Differ(a, b, i)
          ensures i == 0
        {
          FrontAgrees(a, b, i);
        }
      }
    }
  }

  lemma FrontAgrees(a: string, b: string, i: nat)
    requires Differ(a, b, i)
    ensures i > 0 ==> a[0] == b[0]
  {
    if i > 0 {
      assert a[0] == a[..i][0] == b[..i][0] == b[0];
    }
  }

  lemma PrefixTail(a: string, b: string)
    requires a != "" && b != "" && a[0] == b[0]
    ensures a <= b <==> a[1..] <= b[1..]
  {
    if a[1..] <= b[1..] {
      assert a == [a[0]] + a[1..] && b == [b[0]] + b[1..];
    }
  }

  lemma {:induction false} Reflexive(a: string)
    ensures Le(a, a)
  {
    if a != "" {
      Reflexive(a[1..]);
    }
  }

  lemma {:induction false} Total(a: string, b: string)
    ensures Le(a, b) || Le(b, a)
  {
    if a != "" && b != "" && a[0] == b[0] {
      Total(a[1..], b[1..]);
    }
  }

  lemma {:induction false} Antisymmetric(a: string, b: string)
    requires Le(a, b) && Le(b, a)
    ensures a == b
  {
    if a != "" {
      Antisymmetric(a[1..], b[1..]);
      assert a == [a[0]] + a[1..] && b == [b[0]] + b[1..];
    }
  }

  lemma {:induction false} Transitive(a: string, b: string, c: string)
    requires Le(a, b) && Le(b, c)
    ensures Le(a, c)
  {
    if a != "" && a[0] == b[0] && b[0] == c[0] {
      Transitive(a[1..], b[1..], c[1..]);
    }
  }
}

/** Stable sorting by a total preorder: what sort.SliceStable promises, and that only one list meets it. */
module StableSort {
  ghost predicate TotalPreorder<T(!new)>(le: (T, T) -> bool) {
    && (forall x :: le(x, x))
    && (forall x, y :: le(x, y) || le(y, x))
    && (forall x, y, z :: le(x, y) && le(y, z) ==> le(x, z))
  }

  ghost predicate Sorted<T>(le: (T, T) -> bool, s: seq<T>) { forall i, j :: 0 <= i < j < |s| ==> le(s[i], s[j]) }

  predicate Ties<T>(le: (T, T) -> bool, x: T, y: T) { le(x, y) && le(y, x) }

  /** The elements of s that tie with x, in their order. */
  function Class<T>(le: (T, T) -> bool, s: seq<T>, x: T): seq<T> {
    if s == [] then [] else (if Ties(le, s[0], x) then [s[0]] else []) + Class(le, s[1..], x)
  }

  /** Sorted, and elements that tie keep their order. */
  ghost predicate StableSortOf<T(!new)>(le: (T, T) -> bool, s: seq<T>, out: seq<T>) {
    Sorted(le, out) && forall x :: Class(le, out, x) == Class(le, s, x)
  }

  function Insert<T>(le: (T, T) -> bool, x: T, s: seq<T>): seq<T> {
    if s == [] || le(x, s[0]) then [x] + s else [s[0]] + Insert(le, x, s[1..])
  }

  function Sort<T>(le: (T, T) -> bool, s: seq<T>): seq<T> {
    if s == [] then [] else Insert(le, s[0], Sort(le, s[1..]))
  }

  lemma {:induction false} InsertKeeps<T>(le: (T, T) -> bool, x: T, s: seq<T>)
    ensures multiset(Insert(le, x, s)) == multiset(s) + multiset{x}
  {
    if s != [] && !le(x, s[0]) {
      InsertKeeps(le, x, s[1..]);
      assert s == [s[0]] + s[1..];
    }
  }

  lemma {:induction false} SortKeeps<T>(le: (T, T) -> bool, s: seq<T>)
    ensures multiset(Sort(le, s)) == multiset(s)
  {
    if s != [] {
      SortKeeps(le, s[1..]);
      InsertKeeps(le, s[0], Sort(le, s[1..]));
      assert s == [s[0]] + s[1..];
    }
  }

  lemma {:induction false} InsertSorted<T(!new)>(le: (T, T) -> bool, x: T, s: seq<T>)
    requires TotalPreorder(le) && Sorted(le, s)
    ensures Sorted(le, Insert(le, x, s))
  {
    if s != [] && !le(x, s[0]) {
      InsertSorted(le, x, s[1..]);
      var r := Insert(le, x, s[1..]);
      InsertKeeps(le, x, s[1..]);
      forall i | 0 <= i < |r|
        ensures le(s[0], r[i])
      {
        assert r[i] in multiset(r);
        assert r[i] == x || r[i] in s[1..];
      }
    }
  }

  /** An element that comes strictly after another does not tie with anything the other ties with. */
  lemma TieThrough<T(!new)>(le: (T, T) -> bool, x: T, y: T, z: T)
    requires TotalPreorder(le) && !le(x, y)
    ensures !(Ties(le, x, z) && Ties(le, y, z))
  {
    assert le(x, z) && le(z, y) ==> le(x, y);
  }

  lemma ClassCons<T>(le: (T, T) -> bool, x: T, s: seq<T>, y: T)
    ensures Class(le, [x] + s, y) == Class(le, [x], y) + Class(le, s, y)
    ensures !Ties(le, x, y) ==> Class(le, [x], y) == []
  {
    assert ([x] + s)[1..] == s;
  }

  lemma {:induction false} InsertClass<T(!new)>(le: (T, T) -> bool, x: T, s: seq<T>, y: T)
    requires TotalPreorder(le)
    ensures Class(le, Insert(le, x, s), y) == Class(le, [x] + s, y)
  {
    hide TotalPreorder, Ties, Class;
    if s == [] {
      assert [x] + s == [x];
    } else if !le(x, s[0]) {
      var h, t := s[0], s[1..];
      InsertClass(le, x, t, y);
      TieThrough(le, x, h, y);
      ClassCons(le, h, Insert(le, x, t), y);
      ClassCons(le, x, t, y);
      ClassCons(le, h, t, y);
      ClassCons(le, x, s, y);
      assert s == [h] + t;
    }
  }

  lemma {:induction false} SortIsStable<T(!new)>(le: (T, T) -> bool, s: seq<T>)
    requires TotalPreorder(le)
    ensures StableSortOf(le, s, Sort(le, s))
  {
    if s != [] {
      SortIsStable(le, s[1..]);
      InsertSorted(le, s[0], Sort(le, s[1..]));
      forall y
        ensures Class(le, Sort(le, s), y) == Class(le, s, y)
      {
        InsertClass(le, s[0], Sort(le, s[1..]), y);
        ClassCons(le, s[0], Sort(le, s[1..]), y);
        ClassCons(le, s[0], s[1..], y);
        assert s == [s[0]] + s[1..];
      }
    }
  }

  lemma {:induction false} ClassMember<T(!new)>(le: (T, T) -> bool, s: seq<T>, x: T)
    requires TotalPreorder(le)
    ensures forall i :: 0 <= i < |Class(le, s, x)| ==> Class(le, s, x)[i] in s && Ties(le, Class(le, s, x)[i], x)
    ensures x in s ==> Class(le, s, x) != []
  {
    if s != [] {
      ClassMember(le, s[1..], x);
      assert s == [s[0]] + s[1..];
    }
  }

  lemma SmallestFirst<T(!new)>(le: (T, T) -> bool, a: seq<T>, b: seq<T>)
    requires TotalPreorder(le) && Sorted(le, b) && a != [] && Class(le, a, a[0]) == Class(le, b, a[0])
    ensures b != [] && le(b[0], a[0])
  {
    ClassMember(le, a, a[0]);
    ClassMember(le, b, a[0]);
    var y := Class(le, b, a[0])[0];
    assert y in b && le(y, a[0]);
    var i :| 0 <= i < |b| && b[i] == y;
    assert le(b[0], b[i]);
  }

  /** Only one list is a stable sort of a given one. */
  lemma {:induction false} StableSortUnique<T(!new)>(le: (T, T) -> bool, a: seq<T>, b: seq<T>)
    requires TotalPreorder(le) && Sorted(le, a) && Sorted(le, b)
    requires forall x :: Class(le, a, x) == Class(le, b, x)
    ensures a == b
    decreases |a|
  {
    if a == [] {
      if b != [] {
        SmallestFirst(le, b, a);
      }
    } else {
      SmallestFirst(le, a, b);
      SmallestFirst(le, b, a);
      assert Class(le, a, a[0])[0] == a[0] && Class(le, b, a[0])[0] == b[0];
      forall x
        ensures Class(le, a[1..], x) == Class(le, b[1..], x)
      {
        var head := if Ties(le, a[0], x) then [a[0]] else [];
        assert Class(le, a, x) == head + Class(le, a[1..], x);
        assert Class(le, b, x) == head + Class(le, b[1..], x);
        assert Class(le, a[1..], x) == Class(le, a, x)[|head|..];
        assert Class(le, b[1..], x) == Class(le, b, x)[|head|..];
      }
      StableSortUnique(le, a[1..], b[1..]);
      assert a == [a[0]] + a[1..] && b == [b[0]] + b[1..];
    }
  }

  /** A list that is already sorted is its own stable sort. */
  lemma {:induction false} SortedIsFixed<T(!new)>(le: (T, T) -> bool, s: seq<T>)
    requires TotalPreorder(le) && Sorted(le, s)
    ensures Sort(le, s) == s
  {
    SortIsStable(le, s);
    StableSortUnique(le, Sort(le, s), s);
  }

  lemma SameFirst<T(!new)>(le: (T, T) -> bool, a: seq<T>, b: seq<T>)
    requires TotalPreorder(le) && Sorted(le, a) && Sorted(le, b) && multiset(a) == multiset(b) && a != [] && b != []
    requires forall x, y :: x in multiset(a) && y in multiset(a) && Ties(le, x, y) ==> x == y
    ensures a[0] == b[0]
  {
    assert a[0] in multiset(b) && b[0] in multiset(a);
    var i :| 0 <= i < |b| && b[i] == a[0];
    var j :| 0 <= j < |a| && a[j] == b[0];
    assert le(a[0], a[j]) && le(b[0], b[i]);
  }

  lemma TailCounts<T>(s: seq<T>, x: T)
    requires s != []
    ensures multiset(s)[x] == multiset(s[1..])[x] + if x == s[0] then 1 else 0
  {
    assert s == [s[0]] + s[1..];
  }

  lemma SameTail<T>(a: seq<T>, b: seq<T>)
    requires a != [] && b != [] && a[0] == b[0] && multiset(a) == multiset(b)
    ensures multiset(a[1..]) == multiset(b[1..])
    ensures forall x :: x in multiset(a[1..]) ==> x in multiset(a)
  {
    forall x
      ensures multiset(a[1..])[x] == multiset(b[1..])[x]
      ensures x in multiset(a[1..]) ==> x in multiset(a)
    {
      TailCounts(a, x);
      TailCounts(b, x);
    }
  }

  lemma SameLength<T>(a: seq<T>, b: seq<T>)
    requires multiset(a) == multiset(b)
    ensures |a| == |b|
  {
    assert |a| == |multiset(a)| && |b| == |multiset(b)|;
  }

  lemma SortedTail<T>(le: (T, T) -> bool, s: seq<T>)
    requires Sorted(le, s) && s != []
    ensures Sorted(le, s[1..])
  {
  }

  lemma {:induction false} SameSorted<T(!new)>(le: (T, T) -> bool, a: seq<T>, b: seq<T>)
    requires TotalPreorder(le) && Sorted(le, a) && Sorted(le, b) && multiset(a) == multiset(b)
    requires forall x, y :: x in multiset(a) && y in multiset(a) && Ties(le, x, y) ==> x == y
    ensures a == b
    decreases |a|
  {
    hide TotalPreorder, Ties, Sorted;
    SameLength(a, b);
    if a != [] {
      SameFirst(le, a, b);
      SameTail(a, b);
      SortedTail(le, a);
      SortedTail(le, b);
      SameSorted(le, a[1..], b[1..]);
      assert a == [a[0]] + a[1..] && b == [b[0]] + b[1..];
    }
  }

  function Map<S, T>(f: S -> T, s: seq<S>): seq<T> { seq(|s|, i requires 0 <= i < |s| => f(s[i])) }

  lemma MapPush<S, T>(f: S -> T, s: seq<S>, x: S)
    ensures Map(f, s + [x]) == Map(f, s) + [f(x)]
  {
  }

  lemma {:induction false} InsertThroughMap<S, T>(leS: (S, S) -> bool, leT: (T, T) -> bool, f: S -> T, x: S, s: seq<S>)
    requires forall y :: y in s ==> leS(x, y) == leT(f(x), f(y))
    ensures Map(f, Insert(leS, x, s)) == Insert(leT, f(x), Map(f, s))
  {
    if s != [] {
      assert Map(f, s)[1..] == Map(f, s[1..]);
      if !leS(x, s[0]) {
        InsertThroughMap(leS, leT, f, x, s[1..]);
      }
    }
  }

  /** Sorting commutes with a map that keeps the order. */
  lemma {:induction false} SortThroughMap<S, T>(leS: (S, S) -> bool, leT: (T, T) -> bool, f: S -> T, s: seq<S>)
    requires forall x, y :: x in s && y in s ==> leS(x, y) == leT(f(x), f(y))
    ensures Map(f, Sort(leS, s)) == Sort(leT, Map(f, s))
  {
    if s != [] {
      SortThroughMap(leS, leT, f, s[1..]);
      SortKeeps(leS, s[1..]);
      forall y | y in Sort(leS, s[1..])
        ensures y in s
      {
        assert y in multiset(Sort(leS, s[1..]));
      }
      InsertThroughMap(leS, leT, f, s[0], Sort(leS, s[1..]));
      assert Map(f, s)[1..] == Map(f, s[1..]);
    }
  }
}
