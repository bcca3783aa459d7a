/** The generator's operation list: one canonical order, whatever order the spec's maps are walked in. */
module Operations {
  import opened StableSort
  import Lex

  datatype Verb = Get | Post | Put | Patch | Delete

  const HTTP_METHODS := [Get, Post, Put, Patch, Delete]

  function MethodRank(m: Verb): nat {
    match m case Get => 0 case Post => 1 case Put => 2 case Patch => 3 case Delete => 4
  }

  datatype Param = Param(name: string, value: string, description: string, enabled: bool)

  /** Everything an operation carries besides its place: the example body is not part of it. */
  datatype Info = Info(summary: string, description: string, path: seq<Param>, query: seq<Param>)

  datatype Node = Node(tag: string, info: Info)

  datatype Spec = Spec(tags: seq<string>, paths: map<string, map<Verb, Node>>)

  datatype Operation = Operation(tag: string, verb: Verb, path: string, info: Info)

  /** Positions of the declared tags; a repeated tag keeps its last position. */
  function TagMap(tags: seq<string>): map<string, nat> {
    if tags == [] then map[] else TagMap(tags[..|tags| - 1])[tags[|tags| - 1] := |tags| - 1]
  }

  /** Exactly the declared tags, each with the last of its positions. */
  ghost predicate LastPositions(tags: seq<string>, index: map<string, nat>) {
    && (forall tag :: tag in index <==> tag in tags)
    && (forall tag :: tag in index ==>
          index[tag] < |tags| && tags[index[tag]] == tag && forall i :: index[tag] < i < |tags| ==> tags[i] != tag)
  }

  lemma {:induction false} TagMapIsLast(tags: seq<string>)
    ensures LastPositions(tags, TagMap(tags))
  {
    if tags != [] {
      var front, last := tags[..|tags| - 1], tags[|tags| - 1];
      TagMapIsLast(front);
      assert tags == front + [last];
    }
  }

  /** A Go map read: a tag that was never declared reads as 0. */
  function TagIndex(index: map<string, nat>, tag: string): nat { if tag in index then index[tag] else 0 }

  /** A tag's position is its last declaration, and an undeclared tag goes with the first. */
  lemma {:induction false} TagIndexMeaning(tags: seq<string>, tag: string)
    ensures tag !in tags ==> TagIndex(TagMap(tags), tag) == 0
    ensures tag in tags ==>
              exists i :: 0 <= i < |tags| && tags[i] == tag && TagIndex(TagMap(tags), tag) == i && forall k :: i < k < |tags| ==> tags[k] != tag
  {
    hide TagMap;
    TagMapIsLast(tags);
  }

  predicate Less(index: map<string, nat>, a: Operation, b: Operation) {
    var ta, tb := TagIndex(index, a.tag), TagIndex(index, b.tag);
    if ta != tb then ta < tb
    else if a.path != b.path then Lex.Le(a.path, b.path)
    else MethodRank(a.verb) < MethodRank(b.verb)
  }

  function Order(index: map<string, nat>): (Operation, Operation) -> bool {
    (a: Operation, b: Operation) => !Less(index, b, a)
  }

  predicate InSpec(spec: Spec, op: Operation) {
    op.path in spec.paths && op.verb in spec.paths[op.path]
    && spec.paths[op.path][op.verb] == Node(op.tag, op.info)
  }

  /** Every operation of the spec once, nothing else, in the generator's order. */
  ghost predicate IsOperationList(spec: Spec, ops: seq<Operation>) {
    && Sorted(Order(TagMap(spec.tags)), ops)
    && forall op :: multiset(ops)[op] == if InSpec(spec, op) then 1 else 0
  }

  predicate Before(index: map<string, nat>, a: Operation, b: Operation) {
    var ta, tb := TagIndex(index, a.tag), TagIndex(index, b.tag);
    ta < tb || (ta == tb && (if a.path != b.path then Lex.Le(a.path, b.path)
                             else MethodRank(a.verb) <= MethodRank(b.verb)))
  }

  lemma NotLessIsBefore(index: map<string, nat>, a: Operation, b: Operation)
    ensures Order(index)(a, b) <==> Before(index, a, b)
  {
    hide Lex.Le, TagIndex;
    Lex.Total(a.path, b.path);
    if Lex.Le(a.path, b.path) && Lex.Le(b.path, a.path) { Lex.Antisymmetric(a.path, b.path); }
  }

  /** Which operation comes first: by tag, then path, then get, post, put, patch, delete. */
  lemma OrderMeaning(index: map<string, nat>, a: Operation, b: Operation)
    ensures TagIndex(index, a.tag) < TagIndex(index, b.tag) ==> !Order(index)(b, a)
    ensures TagIndex(index, a.tag) == TagIndex(index, b.tag) && a.path != b.path && Lex.Le(a.path, b.path) ==> !Order(index)(b, a)
    ensures TagIndex(index, a.tag) == TagIndex(index, b.tag) && a.path == b.path ==>
              (Order(index)(a, b) <==> a.verb == b.verb || (exists i, j :: 0 <= i < j < 5 && [Get, Post, Put, Patch, Delete][i] == a.verb
                                                                         && [Get, Post, Put, Patch, Delete][j] == b.verb))
  {
    hide Lex.Le, TagIndex;
    NotLessIsBefore(index, a, b);
    NotLessIsBefore(index, b, a);
    if Lex.Le(a.path, b.path) && Lex.Le(b.path, a.path) { Lex.Antisymmetric(a.path, b.path); }
    var verbs := [Get, Post, Put, Patch, Delete];
    assert verbs[MethodRank(a.verb)] == a.verb && verbs[MethodRank(b.verb)] == b.verb;
  }

  lemma BeforeTransitive(index: map<string, nat>, a: Operation, b: Operation, c: Operation)
    requires Before(index, a, b) && Before(index, b, c)
    ensures Before(index, a, c)
  {
    hide Lex.Le, TagIndex;
    if Lex.Le(a.path, b.path) && Lex.Le(b.path, c.path) {
      Lex.Transitive(a.path, b.path, c.path);
    }
    if a.path == c.path && Lex.Le(a.path, b.path) && Lex.Le(b.path, a.path) { Lex.Antisymmetric(a.path, b.path); }
  }

  lemma BeforeTotal(index: map<string, nat>, a: Operation, b: Operation)
    ensures Before(index, a, b) || Before(index, b, a)
  {
    hide Lex.Le, TagIndex;
    Lex.Total(a.path, b.path);
  }

  lemma OrderIsPreorder(index: map<string, nat>)
    ensures TotalPreorder(Order(index))
  {
    hide Before, Order;
    var le := Order(index);
    forall a, b
      ensures le(a, b) || le(b, a)
      ensures le(a, a)
    {
      NotLessIsBefore(index, a, b);
      NotLessIsBefore(index, b, a);
      NotLessIsBefore(index, a, a);
      BeforeTotal(index, a, b);
      BeforeTotal(index, a, a);
    }
    forall a, b, c | le(a, b) && le(b, c)
      ensures le(a, c)
    {
      NotLessIsBefore(index, a, b);
      NotLessIsBefore(index, b, c);
      NotLessIsBefore(index, a, c);
      BeforeTransitive(index, a, b, c);
    }
  }

  lemma OnlyTiesWithItself(spec: Spec, index: map<string, nat>, a: Operation, b: Operation)
    requires InSpec(spec, a) && InSpec(spec, b) && Ties(Order(index), a, b)
    ensures a == b
  {
    hide Lex.Le, TagIndex;
    NotLessIsBefore(index, a, b);
    NotLessIsBefore(index, b, a);
    if a.path != b.path { Lex.Antisymmetric(a.path, b.path); }
  }

  /** Only one list meets the description, so the order in which the maps are walked cannot show. */
  lemma OperationListIsCanonical(spec: Spec, a: seq<Operation>, b: seq<Operation>)
    requires IsOperationList(spec, a) && IsOperationList(spec, b)
    ensures a == b
  {
    hide InSpec, Order;
    var le := Order(TagMap(spec.tags));
    OrderIsPreorder(TagMap(spec.tags));
    assert multiset(a) == multiset(b);
    forall x, y | x in multiset(a) && y in multiset(a) && Ties(le, x, y)
      ensures x == y
    {
      OnlyTiesWithItself(spec, TagMap(spec.tags), x, y);
    }
    SameSorted(le, a, b);
  }

  // ----- the loops -----

  method IndexTags(tags: seq<string>) returns (index: map<string, nat>)
    ensures index == TagMap(tags) && LastPositions(tags, index)
  {
    hide LastPositions;
    index := map[];
    for i := 0 to |tags|
      invariant index == TagMap(tags[..i])
    {
      assert tags[..i + 1][..i] == tags[..i];
      index := index[tags[i] := i];
    }
    assert tags[..|tags|] == tags;
    TagMapIsLast(tags);
  }

  /** The operations found so far: those of the paths done, and of one more path those of the first methods. */
  ghost predicate Collected(spec: Spec, done: set<string>, path: string, methods: nat, ops: seq<Operation>) {
    forall op :: multiset(ops)[op] ==
      if InSpec(spec, op) && (op.path in done || (op.path == path && MethodRank(op.verb) < methods)) then 1 else 0
  }

  method CollectPath(spec: Spec, ghost done: set<string>, path: string, before: seq<Operation>)
    returns (ops: seq<Operation>)
    requires path in spec.paths && path !in done && Collected(spec, done, path, 0, before)
    ensures Collected(spec, done + {path}, path, 0, ops)
  {
    ops := before;
    var item := spec.paths[path];
    for j := 0 to |HTTP_METHODS|
      invariant Collected(spec, done, path, j, ops)
    {
      var verb := HTTP_METHODS[j];
      assert forall m :: MethodRank(m) == j <==> m == verb;
      if verb in item {
        var op := Operation(item[verb].tag, verb, path, item[verb].info);
        ops := ops + [op];
      }
    }
  }

  /** Walks the paths in whatever order the map yields them. */
  method ListOperations(spec: Spec) returns (ops: seq<Operation>)
    ensures IsOperationList(spec, ops)
  {
    hide Order;
    ops := [];
    var left := spec.paths.Keys;
    ghost var done := {};
    while left != {}
      invariant done + left == spec.paths.Keys && done !! left
      invariant Collected(spec, done, "", 0, ops)
      decreases left
    {
      var path :| path in left;
      ops := CollectPath(spec, done, path, ops);
      left := left - {path};
      done := done + {path};
    }
    var index := IndexTags(spec.tags);
    OrderIsPreorder(index);
    SortIsStable(Order(index), ops);
    SortKeeps(Order(index), ops);
    ops := Sort(Order(index), ops);
  }
}
