/** The Postman folders. */
module Postman {
  import opened Operations
  import opened StableSort

  datatype Folder = Folder(name: string, items: seq<Operation>)

  function OfTag(ops: seq<Operation>, tag: string): seq<Operation> {
    if ops == [] then []
    else OfTag(ops[..|ops| - 1], tag) + (if ops[|ops| - 1].tag == tag then [ops[|ops| - 1]] else [])
  }

  function Folders(ops: seq<Operation>, tags: seq<string>): seq<Folder> {
    if tags == [] then []
    else
      var tag := tags[|tags| - 1];
      Folders(ops, tags[..|tags| - 1]) + (if OfTag(ops, tag) == [] then [] else [Folder(tag, OfTag(ops, tag))])
  }

  function Contents(folders: seq<Folder>): seq<Operation> {
    if folders == [] then [] else Contents(folders[..|folders| - 1]) + folders[|folders| - 1].items
  }

  /** Go's read of a missing key: an empty slice. */
  function Group(byTag: map<string, seq<Operation>>, tag: string): seq<Operation> {
    if tag in byTag then byTag[tag] else []
  }

  method GroupByTag(ops: seq<Operation>) returns (byTag: map<string, seq<Operation>>)
    ensures forall tag :: Group(byTag, tag) == OfTag(ops, tag)
  {
    byTag := map[];
    for i := 0 to |ops|
      invariant forall tag :: Group(byTag, tag) == OfTag(ops[..i], tag)
    {
      OfTagStep(ops, i);
      var op := ops[i];
      ghost var had := byTag;
      byTag := byTag[op.tag := Group(byTag, op.tag) + [op]];
      forall tag
        ensures Group(byTag, tag) == OfTag(ops[..i + 1], tag)
      {
        assert Group(byTag, tag) == if tag == op.tag then Group(had, tag) + [op] else Group(had, tag);
      }
    }
    assert ops[..|ops|] == ops;
  }

  lemma OfTagStep(ops: seq<Operation>, i: nat)
    requires i < |ops|
    ensures forall tag :: OfTag(ops[..i + 1], tag) == if ops[i].tag == tag then OfTag(ops[..i], tag) + [ops[i]] else OfTag(ops[..i], tag)
  {
    assert ops[..i + 1][..i] == ops[..i];
  }

  method CopyItems(group: seq<Operation>) returns (items: seq<Operation>)
    ensures items == group
  {
    items := [];
    for k := 0 to |group|
      invariant items == group[..k]
    {
      items := items + [group[k]];
    }
  }

  method GroupIntoFolders(ops: seq<Operation>, tags: seq<string>) returns (folders: seq<Folder>)
    ensures folders == Folders(ops, tags)
  {
    hide OfTag;
    var byTag := GroupByTag(ops);
    folders := [];
    for i := 0 to |tags|
      invariant folders == Folders(ops, tags[..i])
    {
      assert tags[..i + 1][..i] == tags[..i];
      var group := Group(byTag, tags[i]);
      if |group| != 0 {
        var items := CopyItems(group);
        folders := folders + [Folder(tags[i], items)];
      }
    }
    assert tags[..|tags|] == tags;
  }

  /** What the folders of one more tag hold. */
  lemma ContentsStep(ops: seq<Operation>, tags: seq<string>)
    requires tags != []
    ensures Contents(Folders(ops, tags)) == Contents(Folders(ops, tags[..|tags| - 1])) + OfTag(ops, tags[|tags| - 1])
  {
    hide OfTag;
    var front, tag := Folders(ops, tags[..|tags| - 1]), tags[|tags| - 1];
    var folder := Folder(tag, OfTag(ops, tag));
    assert (front + [folder])[..|front|] == front && front + [] == front;
  }

  /** How often x occurs in s. */
  ghost function Times<T>(s: seq<T>, x: T): nat { multiset(s)[x] }

  lemma TimesConcat<T>(a: seq<T>, b: seq<T>, x: T)
    ensures Times(a + b, x) == Times(a, x) + Times(b, x)
  {
  }

  lemma TimesSmall<T>(y: T, x: T)
    ensures Times([], x) == 0 && Times([y], x) == if x == y then 1 else 0
  {
  }

  lemma {:induction false} OfTagTimes(ops: seq<Operation>, tag: string, op: Operation)
    ensures Times(OfTag(ops, tag), op) == if op.tag == tag then Times(ops, op) else 0
  {
    hide Times;
    TimesSmall(op, op);
    if ops != [] {
      var front, last := ops[..|ops| - 1], ops[|ops| - 1];
      OfTagTimes(front, tag, op);
      TimesSmall(last, op);
      TimesConcat(front, [last], op);
      TimesConcat(OfTag(front, tag), if last.tag == tag then [last] else [], op);
      assert ops == front + [last];
    }
  }

  lemma NothingShown(ops: seq<Operation>)
    ensures Contents(Folders(ops, [])) == []
  {
  }

  /** An operation that is listed once is shown once for every declaration of its tag. */
  lemma {:induction false} ShownPerDeclaration(ops: seq<Operation>, tags: seq<string>, op: Operation)
    requires Times(ops, op) <= 1
    ensures Times(Contents(Folders(ops, tags)), op) == if Times(ops, op) == 1 then Times(tags, op.tag) else 0
  {
    hide Times, OfTag, Contents, Folders;
    if tags == [] {
      NothingShown(ops);
      TimesSmall(op, op);
      TimesSmall(op.tag, op.tag);
    } else {
      var front, tag := tags[..|tags| - 1], tags[|tags| - 1];
      ContentsStep(ops, tags);
      ShownPerDeclaration(ops, front, op);
      OfTagTimes(ops, tag, op);
      TimesConcat(Contents(Folders(ops, front)), OfTag(ops, tag), op);
      TimesSmall(tag, op.tag);
      TimesConcat(front, [tag], op.tag);
      assert tags == front + [tag];
    }
  }

  lemma {:induction false} OfTagSorted(le: (Operation, Operation) -> bool, ops: seq<Operation>, tag: string)
    requires Sorted(le, ops)
    ensures Sorted(le, OfTag(ops, tag))
    ensures forall i :: 0 <= i < |OfTag(ops, tag)| ==> OfTag(ops, tag)[i] in ops && OfTag(ops, tag)[i].tag == tag
  {
    if ops != [] {
      var front, last := ops[..|ops| - 1], ops[|ops| - 1];
      OfTagSorted(le, front, tag);
      assert ops == front + [last];
      forall x | x in front
        ensures le(x, last)
      {
        var k :| 0 <= k < |front| && front[k] == x;
        assert le(ops[k], ops[|front|]);
      }
    }
  }

  lemma TwoPlaces(s: seq<string>, i: nat, j: nat)
    requires i < j < |s| && s[i] == s[j]
    ensures multiset(s)[s[i]] >= 2
  {
    assert s == s[..j] + s[j..];
    assert s[i] in multiset(s[..j]) by { assert s[..j][i] == s[i]; }
    assert s[j] in multiset(s[j..]) by { assert s[j..][0] == s[j]; }
  }

  lemma DeclaredOnceIndex(tags: seq<string>, k: nat)
    requires k < |tags| && multiset(tags)[tags[k]] == 1
    ensures TagIndex(TagMap(tags), tags[k]) == k
  {
    hide TagMap;
    TagMapIsLast(tags);
    var at := TagMap(tags)[tags[k]];
    if k < at { TwoPlaces(tags, k, at); }
  }

  ghost predicate DeclaredOnce(ops: seq<Operation>, tags: seq<string>) {
    forall i :: 0 <= i < |ops| ==> multiset(tags)[ops[i].tag] == 1
  }

  ghost predicate Within(index: map<string, nat>, ops: seq<Operation>, k: nat) {
    Sorted(Order(index), ops) && forall i :: 0 <= i < |ops| ==> TagIndex(index, ops[i].tag) < k
  }

  lemma WithinExtends(index: map<string, nat>, a: seq<Operation>, b: seq<Operation>, tag: string, k: nat)
    requires Within(index, a, k) && Sorted(Order(index), b)
    requires forall i :: 0 <= i < |b| ==> b[i].tag == tag && TagIndex(index, tag) == k
    ensures Within(index, a + b, k + 1)
  {
    hide TagIndex;
    forall i, j | 0 <= i < |a| && 0 <= j < |b|
      ensures Order(index)(a[i], b[j])
    {
    }
  }

  /** The folders of the first k tags hold, in order, operations whose tag is among those k. */
  lemma {:induction false} FoldersSorted(ops: seq<Operation>, tags: seq<string>, k: nat)
    requires k <= |tags| && DeclaredOnce(ops, tags) && Sorted(Order(TagMap(tags)), ops)
    ensures Within(TagMap(tags), Contents(Folders(ops, tags[..k])), k)
  {
    hide OfTag, TagMap, TagIndex, Order;
    if k > 0 {
      hide Folders, Contents, Sorted, Within;
      FoldersSorted(ops, tags, k - 1);
      assert tags[..k][..k - 1] == tags[..k - 1];
      ContentsStep(ops, tags[..k]);
      OfTagSorted(Order(TagMap(tags)), ops, tags[k - 1]);
      var next := OfTag(ops, tags[k - 1]);
      if next != [] {
        assert next[0] in ops && next[0].tag == tags[k - 1];
        DeclaredOnceIndex(tags, k - 1);
      }
      WithinExtends(TagMap(tags), Contents(Folders(ops, tags[..k - 1])), next, tags[k - 1], k - 1);
    }
  }

  /** Reading the folders in order gives back the operation list exactly when the tag of every operation
      is declared exactly once. */
  lemma FoldersKeepTheList(spec: Spec, ops: seq<Operation>)
    requires IsOperationList(spec, ops)
    ensures Contents(Folders(ops, spec.tags)) == ops <==> DeclaredOnce(ops, spec.tags)
  {
    hide InSpec, Order, Contents, Folders, TagMap;
    var shown := Contents(Folders(ops, spec.tags));
    forall op
      ensures multiset(shown)[op] == if multiset(ops)[op] == 1 then multiset(spec.tags)[op.tag] else 0
    {
      ShownPerDeclaration(ops, spec.tags, op);
    }
    forall i | 0 <= i < |ops|
      ensures multiset(ops)[ops[i]] == 1
    {
      assert ops[i] in multiset(ops);
    }
    if DeclaredOnce(ops, spec.tags) {
      FoldersSorted(ops, spec.tags, |spec.tags|);
      assert spec.tags[..|spec.tags|] == spec.tags;
      forall op
        ensures multiset(shown)[op] == multiset(ops)[op]
      {
        if multiset(ops)[op] == 1 {
          assert op in ops;
        }
      }
      assert multiset(shown) == multiset(ops);
      assert IsOperationList(spec, shown);
      OperationListIsCanonical(spec, shown, ops);
    }
  }
}

/** The Bruno files. */
module Bruno {
  import opened Operations
  import opened StableSort
  import opened Postman

  const ROOT := "clients/bruno/deployserver/"
  const CONFIG_PATH := ROOT + "bruno.json"
  const ENVIRONMENT_PATH := ROOT + "environments/local.bru"

  datatype File = Config | Environment | Request(op: Operation, number: nat)

  function VerbName(v: Verb): string {
    match v case Get => "get" case Post => "post" case Put => "put" case Patch => "patch" case Delete => "delete"
  }

  function TrimPrefix(s: string, p: string): string { if p <= s then s[|p|..] else s }

  /** Drops braces and turns slashes and dots into dashes. */
  function Squash(s: string): (r: string)
    ensures '/' !in r
  {
    if s == "" then ""
    else if s[0] == '{' || s[0] == '}' then Squash(s[1..])
    else if s[0] == '/' || s[0] == '.' then "-" + Squash(s[1..])
    else [s[0]] + Squash(s[1..])
  }

  function Slug(op: Operation): string { VerbName(op.verb) + "-" + Squash(TrimPrefix(op.path, "/api/v1/")) }

  lemma SquashOne(c: char)
    ensures Squash([c]) == if c in "{}" then "" else if c in "/." then "-" else [c]
  {
    assert [c][1..] == "";
  }

  lemma SquashStep(s: string)
    requires s != ""
    ensures Squash(s) == Squash([s[0]]) + Squash(s[1..])
  {
    SquashOne(s[0]);
  }

  /** Squashing works character by character. */
  lemma {:induction false} SquashMeaning(a: string, c: char, b: string)
    ensures Squash(a + b) == Squash(a) + Squash(b)
    ensures Squash([c]) == if c in "{}" then "" else if c in "/." then "-" else [c]
    decreases |a|
  {
    hide Squash;
    SquashOne(c);
    if a == "" {
      NothingSquashed();
      assert a + b == b;
    } else {
      SquashMeaning(a[1..], c, b);
      SquashStep(a);
      SquashStep(a + b);
      assert (a + b)[1..] == a[1..] + b;
    }
  }

  lemma NothingSquashed()
    ensures Squash("") == ""
  {
  }

  /** The slug of an operation under /api/v1/ starts with its verb and leaves the prefix out; another path is kept whole. */
  lemma SlugMeaning(op: Operation, rest: string)
    ensures op.path == "/api/v1/" + rest ==>
              Slug(op) == (match op.verb
                           case Get => "get-" + Squash(rest) case Post => "post-" + Squash(rest) case Put => "put-" + Squash(rest)
                           case Patch => "patch-" + Squash(rest) case Delete => "delete-" + Squash(rest))
    ensures !("/api/v1/" <= op.path) ==> exists verb :: Slug(op) == verb + "-" + Squash(op.path)
  {
    hide Squash;
    if op.path == "/api/v1/" + rest {
      assert op.path[8..] == rest;
    } else if !("/api/v1/" <= op.path) {
      assert Slug(op) == VerbName(op.verb) + "-" + Squash(op.path);
    }
  }

  function FilePath(op: Operation): string { ROOT + (op.tag + "/" + Slug(op)) + ".bru" }

  function TagOrder(index: map<string, nat>): (Operation, Operation) -> bool {
    (a: Operation, b: Operation) => !(TagIndex(index, b.tag) < TagIndex(index, a.tag))
  }

  /** Sorting the operation list again by tag alone changes nothing. */
  lemma ResortIsIdentity(spec: Spec, ops: seq<Operation>)
    requires IsOperationList(spec, ops)
    ensures Sort(TagOrder(TagMap(spec.tags)), ops) == ops
  {
    hide TagIndex, TagMap, Sort;
    var index := TagMap(spec.tags);
    forall i, j | 0 <= i < j < |ops|
      ensures TagOrder(index)(ops[i], ops[j])
    {
      assert Order(index)(ops[i], ops[j]);
    }
    SortedIsFixed(TagOrder(index), ops);
  }

  /** The files after writing the operations in order: a later file replaces an earlier one of the same path. */
  function Emit(ops: seq<Operation>): map<string, File> {
    if ops == [] then map[CONFIG_PATH := Config, ENVIRONMENT_PATH := Environment]
    else
      var op := ops[|ops| - 1];
      Emit(ops[..|ops| - 1])[FilePath(op) := Request(op, |OfTag(ops, op.tag)|)]
  }

  function Count(counts: map<string, nat>, tag: string): nat { if tag in counts then counts[tag] else 0 }

  method WriteFiles(ops: seq<Operation>, tags: seq<string>) returns (files: map<string, File>)
    ensures files == Emit(Sort(TagOrder(TagMap(tags)), ops))
  {
    hide TagMap, Sort, FilePath, OfTag, TagOrder;
    files := map[CONFIG_PATH := Config, ENVIRONMENT_PATH := Environment];
    var counts: map<string, nat> := map[];
    var index := IndexTags(tags);
    var sorted := Sort(TagOrder(index), ops);
    NoneOfTag(sorted);
    for i := 0 to |sorted|
      invariant files == Emit(sorted[..i])
      invariant forall tag :: Count(counts, tag) == |OfTag(sorted[..i], tag)|
    {
      var op := sorted[i];
      OfTagStep(sorted, i);
      assert sorted[..i + 1][..i] == sorted[..i];
      ghost var had := counts;
      counts := counts[op.tag := Count(counts, op.tag) + 1];
      forall tag
        ensures Count(counts, tag) == |OfTag(sorted[..i + 1], tag)|
      {
        assert Count(counts, tag) == if tag == op.tag then Count(had, tag) + 1 else Count(had, tag);
      }
      files := files[FilePath(op) := Request(op, counts[op.tag])];
    }
    assert sorted[..|sorted|] == sorted;
  }

  lemma NoneOfTag(ops: seq<Operation>)
    ensures forall tag :: OfTag(ops[..0], tag) == []
  {
  }

  // ----- distinct paths -----

  lemma SlugHasNoSlash(op: Operation)
    ensures '/' !in Slug(op) && '-' in Slug(op)
  {
    hide Squash;
    var rest := Squash(TrimPrefix(op.path, "/api/v1/"));
    assert Slug(op)[|VerbName(op.verb)|] == '-';
  }

  lemma LastSlash(a: string, x: string, b: string, y: string)
    requires a + "/" + x == b + "/" + y && '/' !in x && '/' !in y
    ensures a == b && x == y
  {
    var s := a + "/" + x;
    assert s[|a|] == '/' && s[|b|] == '/';
    assert !(|a| < |b|) && !(|b| < |a|);
    assert s[..|a|] == a && s[..|b|] == b;
    assert s[|a| + 1..] == x && s[|b| + 1..] == y;
  }

  lemma Unwrap(a: string, b: string)
    requires ROOT + a + ".bru" == ROOT + b + ".bru"
    ensures a == b
  {
    var s, t := ROOT + a + ".bru", ROOT + b + ".bru";
    assert s[|ROOT|..|s| - 4] == a && t[|ROOT|..|t| - 4] == b;
  }

  /** Where the files are: a directory per tag, a file per slug. */
  lemma FilesAreAt(op: Operation)
    ensures FilePath(op) == "clients/bruno/deployserver/" + op.tag + "/" + Slug(op) + ".bru"
    ensures CONFIG_PATH == "clients/bruno/deployserver/bruno.json"
    ensures ENVIRONMENT_PATH == "clients/bruno/deployserver/environments/local.bru"
  {
    hide Slug;
  }

  /** Two operations share a file exactly when they share tag and slug. */
  lemma SameFile(a: Operation, b: Operation)
    ensures FilePath(a) == FilePath(b) <==> a.tag == b.tag && Slug(a) == Slug(b)
  {
    hide Slug;
    SlugHasNoSlash(a);
    SlugHasNoSlash(b);
    if FilePath(a) == FilePath(b) {
      Unwrap(a.tag + "/" + Slug(a), b.tag + "/" + Slug(b));
      LastSlash(a.tag, Slug(a), b.tag, Slug(b));
    }
  }

  /** The slug tells the verb, so only the squashed paths of one verb can clash. */
  lemma SlugTells(a: Operation, b: Operation)
    ensures Slug(a) == Slug(b) <==>
              a.verb == b.verb && Squash(TrimPrefix(a.path, "/api/v1/")) == Squash(TrimPrefix(b.path, "/api/v1/"))
  {
    hide Squash, TrimPrefix;
    var n, m := VerbName(a.verb), VerbName(b.verb);
    assert Slug(a)[..|n|] == n && Slug(b)[..|m|] == m;
    assert Slug(a)[|n| + 1..] == Squash(TrimPrefix(a.path, "/api/v1/"));
    assert Slug(b)[|m| + 1..] == Squash(TrimPrefix(b.path, "/api/v1/"));
    assert Slug(a)[0] == n[0] && Slug(a)[1] == n[1] && Slug(b)[0] == m[0] && Slug(b)[1] == m[1];
  }

  /** No operation overwrites the two fixed files. */
  lemma FixedFilesAreSafe(op: Operation)
    ensures FilePath(op) != CONFIG_PATH && FilePath(op) != ENVIRONMENT_PATH
    ensures CONFIG_PATH != ENVIRONMENT_PATH
  {
    hide Slug;
    SlugHasNoSlash(op);
    var path := FilePath(op);
    assert path[|path| - 1] == 'u' && CONFIG_PATH[|CONFIG_PATH| - 1] == 'n';
    assert ENVIRONMENT_PATH[|ENVIRONMENT_PATH| - 1] == 'u';
    if path == ENVIRONMENT_PATH {
      assert ENVIRONMENT_PATH == ROOT + ("environments" + "/" + "local") + ".bru";
      Unwrap(op.tag + "/" + Slug(op), "environments" + "/" + "local");
      LastSlash(op.tag, Slug(op), "environments", "local");
    }
  }

  /** Slugs differ within every tag. */
  ghost predicate SlugsDiffer(ops: seq<Operation>) {
    forall i, j :: 0 <= i < j < |ops| && ops[i].tag == ops[j].tag ==> Slug(ops[i]) != Slug(ops[j])
  }

  lemma {:induction false} EmittedPaths(ops: seq<Operation>)
    ensures forall p :: p in Emit(ops) <==> p == CONFIG_PATH || p == ENVIRONMENT_PATH || exists i :: 0 <= i < |ops| && FilePath(ops[i]) == p
  {
    hide FilePath, OfTag;
    if ops != [] {
      var front, op := ops[..|ops| - 1], ops[|ops| - 1];
      EmittedPaths(front);
      forall p
        ensures p in Emit(ops) <==> p == CONFIG_PATH || p == ENVIRONMENT_PATH || exists i :: 0 <= i < |ops| && FilePath(ops[i]) == p
      {
        if i :| 0 <= i < |front| && FilePath(front[i]) == p {
          assert FilePath(ops[i]) == p;
        }
        if i :| 0 <= i < |ops| && FilePath(ops[i]) == p && i != |front| {
          assert FilePath(front[i]) == p;
        }
      }
    }
  }

  lemma Clash(ops: seq<Operation>)
    requires ops != [] && SlugsDiffer(ops[..|ops| - 1])
    ensures FilePath(ops[|ops| - 1]) in Emit(ops[..|ops| - 1]) <==> !SlugsDiffer(ops)
  {
    hide FilePath, Slug, Emit;
    var front, op := ops[..|ops| - 1], ops[|ops| - 1];
    EmittedPaths(front);
    FixedFilesAreSafe(op);
    forall i | 0 <= i < |front|
      ensures FilePath(front[i]) == FilePath(op) <==> ops[i].tag == op.tag && Slug(ops[i]) == Slug(op)
    {
      SameFile(front[i], op);
    }
    assert forall i :: 0 <= i < |front| ==> front[i] == ops[i];
    if SlugsDiffer(ops) {
      assert FilePath(op) !in Emit(front);
    } else {
      var i, j :| 0 <= i < j < |ops| && ops[i].tag == ops[j].tag && Slug(ops[i]) == Slug(ops[j]);
      assert j == |front|;
    }
  }

  lemma FixedFiles()
    ensures |Emit([])| == 2
  {
    assert CONFIG_PATH[|CONFIG_PATH| - 1] == 'n' && ENVIRONMENT_PATH[|ENVIRONMENT_PATH| - 1] == 'u';
    assert Emit([]) == map[CONFIG_PATH := Config][ENVIRONMENT_PATH := Environment];
  }

  /** Besides the two fixed files there is one file per operation exactly when slugs differ within every tag;
      otherwise files are lost. */
  lemma {:induction false} OneFilePerOperation(ops: seq<Operation>)
    ensures if SlugsDiffer(ops) then |Emit(ops)| == |ops| + 2 else |Emit(ops)| < |ops| + 2
  {
    hide FilePath, OfTag, Slug;
    if ops == [] {
      FixedFiles();
    } else {
      var front := ops[..|ops| - 1];
      OneFilePerOperation(front);
      if SlugsDiffer(front) {
        Clash(ops);
      } else {
        var i, j :| 0 <= i < j < |front| && front[i].tag == front[j].tag && Slug(front[i]) == Slug(front[j]);
        assert ops[i] == front[i] && ops[j] == front[j];
      }
    }
  }

  lemma InFront(ops: seq<Operation>, i: nat)
    requires i + 1 < |ops|
    ensures ops[..|ops| - 1][..i + 1] == ops[..i + 1] && ops[..|ops| - 1][i] == ops[i]
  {
  }

  /** Every operation then has its own file, numbered by its place in its Postman folder. */
  lemma {:induction false} EveryOperationIsFiled(ops: seq<Operation>, i: nat)
    requires SlugsDiffer(ops) && i < |ops|
    ensures FilePath(ops[i]) in Emit(ops)
    ensures var n := |OfTag(ops[..i + 1], ops[i].tag)|;
            && Emit(ops)[FilePath(ops[i])] == Request(ops[i], n)
            && 0 < n <= |OfTag(ops, ops[i].tag)| && OfTag(ops, ops[i].tag)[n - 1] == ops[i]
  {
    hide FilePath, Slug;
    var front, last := ops[..|ops| - 1], ops[|ops| - 1];
    if i < |front| {
      EveryOperationIsFiled(front, i);
      InFront(ops, i);
      SameFile(ops[i], last);
    } else {
      assert ops[..i + 1] == ops;
    }
  }

  /** A real collision: two paths that differ only in a slash and a dash share a file. */
  lemma SlugsCollide(info: Info)
    ensures |Emit([Operation("t", Get, "/a/b", info), Operation("t", Get, "/a-b", info)])| < 4
  {
    hide Emit;
    var a, b := Operation("t", Get, "/a/b", info), Operation("t", Get, "/a-b", info);
    assert "/a/b"[1..] == "a/b" && "a/b"[1..] == "/b" && "/b"[1..] == "b" && "b"[1..] == "";
    assert "/a-b"[1..] == "a-b" && "a-b"[1..] == "-b" && "-b"[1..] == "b";
    assert Squash("/a/b") == "-a-b" && Squash("/a-b") == "-a-b";
    var ops := [a, b];
    assert ops[0].tag == ops[1].tag && Slug(ops[0]) == Slug(ops[1]);
    OneFilePerOperation(ops);
  }
}

/** Postman's path segments, and the path read back from them. */
module PathSegments {
  import opened Text
  import opened StableSort

  function TrimAll(s: string, cut: set<char>): (r: string)
    ensures r != "" ==> r[0] !in cut && r[|r| - 1] !in cut
    ensures s != "" && s[0] !in cut && s[|s| - 1] !in cut ==> r == s
  {
    if s == "" then ""
    else if s[0] in cut then TrimAll(s[1..], cut)
    else if s[|s| - 1] in cut then TrimAll(s[..|s| - 1], cut)
    else s
  }

  predicate Braced(s: string) { s != "" && s[0] == '{' && s[|s| - 1] == '}' }

  function Segment(s: string): string { if Braced(s) then ":" + TrimAll(s, {'{', '}'}) else s }

  function ReadSegment(s: string): string { if ":" <= s then "{" + s[1..] + "}" else s }

  function Segments(path: string): seq<string> { Map(Segment, Split(TrimAll(path, {'/'}), '/')) }

  function ReadPath(segments: seq<string>): string { "/" + Join(Map(ReadSegment, segments), '/') }

  method PathSegments(path: string) returns (out: seq<string>)
    ensures out == Segments(path)
  {
    hide Split, TrimAll, Segment;
    var parts := Split(TrimAll(path, {'/'}), '/');
    out := [];
    for i := 0 to |parts|
      invariant out == Map(Segment, parts[..i])
    {
      MapPush(Segment, parts[..i], parts[i]);
      assert parts[..i + 1] == parts[..i] + [parts[i]];
      out := out + [Segment(parts[i])];
    }
    assert parts[..|parts|] == parts;
  }

  /** A segment that survives: a parameter in one pair of braces, or text that does not look like a variable. */
  predicate Plain(s: string) {
    if Braced(s) then s == "{}" || (|s| > 2 && s[1] !in {'{', '}'} && s[|s| - 2] !in {'{', '}'})
    else !(":" <= s)
  }

  predicate WellShaped(path: string) {
    && path != "" && path[0] == '/'
    && (|path| == 1 || (path[1] != '/' && path[|path| - 1] != '/'))
    && forall i :: 0 <= i < |Split(path[1..], '/')| ==> Plain(Split(path[1..], '/')[i])
  }

  lemma {:induction false} TrimLast(s: string, c: char, cut: set<char>)
    requires c in cut
    ensures TrimAll(s + [c], cut) == TrimAll(s, cut)
  {
    var t := s + [c];
    assert t[..|t| - 1] == s;
    if s != "" && s[0] in cut {
      assert t[1..] == s[1..] + [c];
      TrimLast(s[1..], c, cut);
    }
  }

  lemma {:induction false} TrimAddsNothing(s: string, cut: set<char>, c: char)
    requires c !in s
    ensures c !in TrimAll(s, cut)
  {
    if s != "" && s[0] in cut {
      TrimAddsNothing(s[1..], cut, c);
    } else if s != "" && s[|s| - 1] in cut {
      TrimAddsNothing(s[..|s| - 1], cut, c);
    }
  }

  lemma TrimFirst(s: string, cut: set<char>)
    requires s != "" && s[0] in cut
    ensures TrimAll(s, cut) == TrimAll(s[1..], cut)
  {
  }

  lemma TrimFixed(s: string, cut: set<char>)
    ensures TrimAll(s, cut) == s <==> s == "" || (s[0] !in cut && s[|s| - 1] !in cut)
  {
    hide TrimAll;
    if s == "" { EmptyTrim(cut); }
  }

  lemma EmptyTrim(cut: set<char>)
    ensures TrimAll("", cut) == ""
  {
  }

  lemma SameWrapped(a: string, b: string)
    requires "{" + a + "}" == "{" + b + "}"
    ensures a == b
  {
    var s := "{" + a + "}";
    assert s[1..|s| - 1] == a && s[1..|s| - 1] == b;
  }

  /** A segment in braces comes back with the inside trimmed of braces. */
  lemma BracedSegment(s: string)
    requires Braced(s)
    ensures |s| >= 2 && ReadSegment(Segment(s)) == "{" + TrimAll(s[1..|s| - 1], {'{', '}'}) + "}"
    ensures s == "{" + s[1..|s| - 1] + "}"
  {
    hide TrimAll;
    TrimBothEnds(s, {'{', '}'});
    var t := TrimAll(s[1..|s| - 1], {'{', '}'});
    assert (":" + t)[1..] == t;
  }

  lemma SegmentRoundTrip(s: string)
    requires '/' !in s
    ensures ReadSegment(Segment(s)) == s <==> Plain(s)
    ensures '/' !in ReadSegment(Segment(s)) && (s != "" ==> ReadSegment(Segment(s)) != "")
  {
    hide TrimAll;
    if Braced(s) {
      hide Segment, ReadSegment;
      var cut, inner := {'{', '}'}, s[1..|s| - 1];
      BracedSegment(s);
      TrimAddsNothing(inner, cut, '/');
      TrimFixed(inner, cut);
      if ReadSegment(Segment(s)) == s {
        SameWrapped(TrimAll(inner, cut), inner);
      }
      assert inner != "" ==> inner[0] == s[1] && inner[|inner| - 1] == s[|s| - 2];
    }
  }

  lemma TrimBothEnds(s: string, cut: set<char>)
    requires |s| >= 2 && s[0] in cut && s[|s| - 1] in cut
    ensures TrimAll(s, cut) == TrimAll(s[1..|s| - 1], cut)
  {
    hide TrimAll;
    assert s[1..] == s[1..|s| - 1] + [s[|s| - 1]];
    TrimFirst(s, cut);
    TrimLast(s[1..|s| - 1], s[|s| - 1], cut);
  }

  lemma {:induction false} JoinEnds(parts: seq<string>, sep: char)
    requires parts != []
    ensures var s, first, last := Join(parts, sep), parts[0], parts[|parts| - 1];
            && (first != "" ==> s != "" && s[0] == first[0])
            && (first == "" ==> s == "" || s[0] == sep)
            && (last != "" ==> s != "" && s[|s| - 1] == last[|last| - 1])
            && (last == "" ==> s == "" || s[|s| - 1] == sep)
  {
    if |parts| > 1 {
      JoinEnds(parts[1..], sep);
      assert parts[1..][|parts| - 2] == parts[|parts| - 1];
    }
  }

  function Back(parts: seq<string>): seq<string> { Map(ReadSegment, Map(Segment, parts)) }

  lemma BackMeaning(parts: seq<string>)
    requires forall i :: 0 <= i < |parts| ==> '/' !in parts[i]
    ensures |Back(parts)| == |parts|
    ensures forall i :: 0 <= i < |parts| ==> '/' !in Back(parts)[i] && (parts[i] != "" ==> Back(parts)[i] != "")
    ensures Back(parts) == parts <==> forall i :: 0 <= i < |parts| ==> Plain(parts[i])
  {
    hide Segment, ReadSegment, Plain;
    forall i | 0 <= i < |parts|
      ensures '/' !in Back(parts)[i] && (parts[i] != "" ==> Back(parts)[i] != "")
      ensures Back(parts)[i] == parts[i] <==> Plain(parts[i])
    {
      SegmentRoundTrip(parts[i]);
      assert Back(parts)[i] == ReadSegment(Segment(parts[i]));
    }
  }

  predicate NoSlashEnds(s: string) { s == "" || (s[0] != '/' && s[|s| - 1] != '/') }

  lemma TrimmedPath(rest: string)
    requires NoSlashEnds(rest)
    ensures TrimAll("/" + rest, {'/'}) == rest
  {
    assert ("/" + rest)[1..] == rest;
  }

  lemma BackEnds(body: string)
    requires NoSlashEnds(body)
    ensures NoSlashEnds(Join(Back(Split(body, '/')), '/'))
  {
    hide TrimAll, Segment, ReadSegment, Plain, Back, Split, Join;
    var parts := Split(body, '/');
    SplitParts(body, '/');
    JoinSplit(body, '/');
    BackMeaning(parts);
    JoinEnds(parts, '/');
    JoinEnds(Back(parts), '/');
    if body == "" {
      EmptyBody();
    }
  }

  lemma EmptyBody()
    ensures Join(Back(Split("", '/')), '/') == ""
  {
    assert Split("", '/') == [""];
    assert Segment("") == "" && ReadSegment("") == "";
    assert Map(Segment, [""]) == [""];
    assert Map(ReadSegment, [""]) == [""];
  }

  /** The path written as Postman segments and read back is the original exactly when it has one leading
      slash, no trailing slash and only plain segments. */
  lemma PathRoundTrip(path: string)
    ensures ReadPath(Segments(path)) == path <==> WellShaped(path)
  {
    hide TrimAll, Segment, ReadSegment, Plain, Split, Join;
    var body := TrimAll(path, {'/'});
    var parts := Split(body, '/');
    SplitParts(body, '/');
    JoinSplit(body, '/');
    BackMeaning(parts);
    BackEnds(body);
    SplitJoin(Back(parts), '/');
    var rest := Join(Back(parts), '/');
    assert ReadPath(Segments(path)) == "/" + rest;
    if path == "/" + rest {
      TrimmedPath(rest);
      assert body == rest && path[1..] == rest;
    } else if WellShaped(path) {
      assert path == "/" + path[1..];
      TrimmedPath(path[1..]);
    }
  }
}
