/**
 * Example bodies: expanding a schema over possibly cyclic references, with one set of seen references
 * shared by the whole expansion. Go walks a map in any order, so an expansion is a relation.
 */
module Schemas {
  import opened Basics
  import opened Text

  datatype Json =
    | Null
    | Bool(b: bool)
    | Num(n: int)
    | Str(s: string)
    | Arr(items: seq<Json>)
    | Obj(fields: map<string, Json>)

  /** A Go map read: a missing key, or a read from something that is not an object, gives nil. */
  function Field(j: Json, k: string): Json { if j.Obj? && k in j.fields then j.fields[k] else Null }

  function Ref(j: Json): Option<string> { if Field(j, "$ref").Str? then Some(Field(j, "$ref").s) else None }

  lemma RefMeaning(j: Json, ref: string)
    ensures Ref(j) == Some(ref) <==> j.Obj? && "$ref" in j.fields && j.fields["$ref"] == Str(ref)
  {
  }

  /** Every reference written anywhere inside. */
  ghost function RefsOf(j: Json): set<string> {
    match j
    case Arr(items) => set i, r | 0 <= i < |items| && r in RefsOf(items[i]) :: r
    case Obj(fields) =>
      (if Ref(j).Some? then {Ref(j).value} else {}) + (set k, r | k in fields && r in RefsOf(fields[k]) :: r)
    case _ => {}
  }

  function Walk(cur: Json, segs: seq<string>): Json
    decreases |segs|
  {
    if segs == [] then cur else if cur.Obj? then Walk(Field(cur, segs[0]), segs[1..]) else Null
  }

  function Pointer(ref: string): seq<string> { Split(if "#/" <= ref then ref[2..] else ref, '/') }

  /** The object a reference points at, or nil. */
  function Target(root: Json, ref: string): Json {
    var t := Walk(root, Pointer(ref));
    if t.Obj? then t else Null
  }

  lemma {:induction false} WalkOn(cur: Json, a: seq<string>, b: seq<string>)
    ensures Walk(cur, a + b) == Walk(Walk(cur, a), b)
    decreases |a|
  {
    if a == [] {
      assert a + b == b;
    } else {
      assert (a + b)[1..] == a[1..] + b;
      if cur.Obj? {
        WalkOn(Field(cur, a[0]), a[1..], b);
      }
    }
  }

  lemma WalkOne(cur: Json, k: string)
    ensures Walk(cur, [k]) == Field(cur, k)
    ensures forall m, x :: Field(Obj(m), x) == if x in m then m[x] else Null
  {
  }

  /** The nodes passed on the way: from root, each the value of the next segment in the one before. */
  ghost predicate Chain(root: Json, segs: seq<string>, nodes: seq<Json>) {
    && |nodes| == |segs| + 1 && nodes[0] == root
    && forall i :: 0 <= i < |segs| ==> Link(nodes[i], segs[i], nodes[i + 1])
  }

  ghost predicate Link(from: Json, seg: string, to: Json) { from.Obj? && seg in from.fields && from.fields[seg] == to }

  lemma {:induction false} WalkIsChain(root: Json, segs: seq<string>) returns (nodes: seq<Json>)
    requires Walk(root, segs).Obj?
    ensures Chain(root, segs, nodes) && nodes[|segs|] == Walk(root, segs)
    decreases |segs|
  {
    nodes := [root];
    if segs != [] {
      var next := Field(root, segs[0]);
      NullLeadsNowhere(segs[1..]);
      var rest := WalkIsChain(next, segs[1..]);
      nodes := [root] + rest;
      forall i | 0 <= i < |segs|
        ensures Link(nodes[i], segs[i], nodes[i + 1])
      {
        if i > 0 {
          assert Link(rest[i - 1], segs[1..][i - 1], rest[i]);
        }
      }
    }
  }

  lemma NullLeadsNowhere(segs: seq<string>)
    ensures Walk(Null, segs) == Null
  {
  }

  lemma {:induction false} ChainIsWalk(root: Json, segs: seq<string>, nodes: seq<Json>)
    requires Chain(root, segs, nodes)
    ensures Walk(root, segs) == nodes[|segs|]
    decreases |segs|
  {
    if segs != [] {
      assert Link(nodes[0], segs[0], nodes[1]);
      forall i | 0 <= i < |segs| - 1
        ensures Link(nodes[1..][i], segs[1..][i], nodes[1..][i + 1])
      {
        assert Link(nodes[i + 1], segs[i + 1], nodes[i + 2]);
      }
      ChainIsWalk(nodes[1], segs[1..], nodes[1..]);
    }
  }

  /** A reference written as segments with slashes between, usually after #/, names the object at the end of that chain. */
  lemma ReferenceMeaning(root: Json, ref: string, segs: seq<string>, t: Json)
    requires segs != [] && (forall i :: 0 <= i < |segs| ==> '/' !in segs[i]) && t.Obj?
    requires ref == "#/" + Join(segs, '/') || (ref == Join(segs, '/') && !("#/" <= ref))
    ensures Target(root, ref) == t <==> exists nodes :: Chain(root, segs, nodes) && nodes[|segs|] == t
    ensures Target(root, ref).Obj? || Target(root, ref) == Null
  {
    hide Walk, Link;
    assert "#/" <= ref ==> ref[2..] == Join(segs, '/');
    SplitJoin(segs, '/');
    if Walk(root, segs).Obj? {
      var nodes := WalkIsChain(root, segs);
    }
    if nodes :| Chain(root, segs, nodes) && nodes[|segs|] == t {
      ChainIsWalk(root, segs, nodes);
    }
  }

  /** What stands in for a reference that has been seen before. */
  const CUT: Json := Obj(map["type" := Str("object")])

  ghost predicate Known(root: Json, j: Json) { RefsOf(j) <= RefsOf(root) }

  ghost function Unseen(root: Json, seen: set<string>): nat { |RefsOf(root) - seen| }

  lemma UnseenShrinks(root: Json, a: set<string>, b: set<string>)
    requires a <= b
    ensures Unseen(root, b) <= Unseen(root, a)
    ensures (exists r :: r in RefsOf(root) && r in b && r !in a) ==> Unseen(root, b) < Unseen(root, a)
  {
    hide RefsOf;
    var x, y := RefsOf(root) - b, RefsOf(root) - a;
    Cardinality(x, y);
    if r :| r in RefsOf(root) && r in b && r !in a {
      assert r in y && r !in x;
    }
  }

  lemma {:induction false} Cardinality(x: set<string>, y: set<string>)
    requires x <= y
    ensures |x| <= |y| && (x != y ==> |x| < |y|)
  {
    if x != y {
      var e :| e in y && e !in x;
      if x == y - {e} {
        assert |y| == |y - {e}| + 1;
      } else {
        Cardinality(x, y - {e});
      }
    }
  }

  lemma KnownField(root: Json, j: Json, k: string)
    requires Known(root, j)
    ensures Known(root, Field(j, k))
    ensures Ref(j).Some? ==> Ref(j).value in RefsOf(root)
  {
  }

  lemma KnownItem(root: Json, j: Json, i: nat)
    requires Known(root, j) && j.Arr? && i < |j.items|
    ensures Known(root, j.items[i])
  {
  }

  lemma {:induction false} KnownTarget(root: Json, cur: Json, segs: seq<string>)
    requires Known(root, cur)
    ensures Known(root, Walk(cur, segs))
    decreases |segs|
  {
    hide RefsOf;
    if segs != [] && cur.Obj? {
      KnownField(root, cur, segs[0]);
      KnownTarget(root, Field(cur, segs[0]), segs[1..]);
    } else {
      NullIsKnown(root);
    }
  }

  lemma NullIsKnown(root: Json)
    ensures Known(root, Null) && Known(root, CUT)
  {
  }

  lemma Hop(root: Json, node: Json, seen: set<string>)
    requires Known(root, node) && Ref(node).Some? && Ref(node).value !in seen
    ensures Known(root, Target(root, Ref(node).value))
    ensures Unseen(root, seen + {Ref(node).value}) < Unseen(root, seen)
  {
    hide RefsOf, Walk, Unseen;
    var ref := Ref(node).value;
    KnownTarget(root, root, Pointer(ref));
    NullIsKnown(root);
    KnownField(root, node, "$ref");
    UnseenShrinks(root, seen, seen + {ref});
  }

  /** Follows references until one has been seen or none is left. */
  ghost function Deref(root: Json, node: Json, seen: set<string>): (r: (Json, set<string>))
    requires Known(root, node)
    ensures Known(root, r.0) && Ref(r.0).None? && seen <= r.1
    ensures Unseen(root, r.1) <= Unseen(root, seen)
    ensures Ref(node).None? ==> r == (node, seen)
    ensures Ref(node).Some? ==> r == (CUT, seen) || Unseen(root, r.1) < Unseen(root, seen)
    decreases Unseen(root, seen)
  {
    hide RefsOf, Unseen, Walk;
    match Ref(node)
    case None => (node, seen)
    case Some(ref) =>
      if ref in seen then
        NullIsKnown(root);
        (CUT, seen)
      else
        Hop(root, node, seen);
        Deref(root, Target(root, ref), seen + {ref})
  }

  // ----- one schema without references -----

  datatype Kind = Object | Array | Number | Boolean | Text | Other

  function FirstType(types: seq<Json>): string {
    if types == [] then "" else if types[0].Str? && types[0].s != "null" then types[0].s else FirstType(types[1..])
  }

  function TypeOf(s: Json): string {
    match Field(s, "type")
    case Str(t) => t
    case Arr(types) => FirstType(types)
    case _ => ""
  }

  function KindOf(s: Json): Kind {
    match TypeOf(s)
    case "object" => Object
    case "array" => Array
    case "integer" => Number
    case "number" => Number
    case "boolean" => Boolean
    case "string" => Kind.Text
    case _ => Other
  }

  /** The type is written as this word, or is a list whose first word other than "null" it is. */
  ghost predicate HasType(s: Json, t: string) {
    s.Obj? && "type" in s.fields &&
    match s.fields["type"]
    case Str(word) => word == t
    case Arr(types) => FirstWord(types, t)
    case _ => false
  }

  ghost predicate FirstWord(types: seq<Json>, t: string) {
    t != "null" && exists i :: 0 <= i < |types| && types[i] == Str(t)
                               && forall j :: 0 <= j < i ==> !types[j].Str? || types[j].s in {"null", t}
  }

  lemma {:induction false} FirstTypeMeaning(types: seq<Json>, t: string)
    requires t != ""
    ensures FirstType(types) == t <==> FirstWord(types, t)
  {
    if types != [] {
      var rest := types[1..];
      FirstTypeMeaning(rest, t);
      assert forall i :: 0 < i < |types| ==> types[i] == rest[i - 1];
      assert forall i :: 0 <= i < |rest| ==> rest[i] == types[i + 1];
    }
  }

  /** Which expansion a schema's type asks for. */
  lemma KindMeaning(s: Json)
    ensures KindOf(s) == Object <==> HasType(s, "object")
    ensures KindOf(s) == Array <==> HasType(s, "array")
    ensures KindOf(s) == Number <==> HasType(s, "integer") || HasType(s, "number")
    ensures KindOf(s) == Boolean <==> HasType(s, "boolean")
    ensures KindOf(s) == Kind.Text <==> HasType(s, "string")
  {
    forall t | t in {"object", "array", "integer", "number", "boolean", "string"}
      ensures TypeOf(s) == t <==> HasType(s, t)
    {
      TypeMeaning(s, t);
    }
  }

  lemma TypeMeaning(s: Json, t: string)
    requires t != ""
    ensures TypeOf(s) == t <==> HasType(s, t)
  {
    if s.Obj? && "type" in s.fields && s.fields["type"].Arr? {
      FirstTypeMeaning(s.fields["type"].items, t);
    }
  }

  lemma PlaceholderMeaning(s: Json)
    ensures StringPlaceholder(s) == "<uuid>" <==> s.Obj? && "format" in s.fields && s.fields["format"] == Str("uuid")
    ensures StringPlaceholder(s) == "<date-time>" <==> s.Obj? && "format" in s.fields && s.fields["format"] == Str("date-time")
    ensures StringPlaceholder(s) in {"<uuid>", "<date-time>", "<string>"}
  {
  }

  function StringPlaceholder(s: Json): string {
    match Field(s, "format")
    case Str(f) => (match f case "uuid" => "<uuid>" case "date-time" => "<date-time>" case _ => "<string>")
    case _ => "<string>"
  }

  function Properties(s: Json): map<string, Json> {
    if Field(s, "properties").Obj? then Field(s, "properties").fields else map[]
  }

  lemma PropertiesMeaning(s: Json, props: map<string, Json>)
    requires props != map[]
    ensures Properties(s) == props <==> s.Obj? && "properties" in s.fields && s.fields["properties"] == Obj(props)
  {
  }

  /** The ways a resolved schema is expanded, in the order they are tried. */
  datatype Plan = Literal(v: Json) | Merged(subs: seq<Json>) | Fields(props: map<string, Json>) | Single(item: Json)

  function PlanOf(s: Json): Plan {
    if !s.Obj? then Literal(Null)
    else if "example" in s.fields then Literal(s.fields["example"])
    else if "default" in s.fields then Literal(s.fields["default"])
    else if Field(s, "allOf").Arr? then Merged(Field(s, "allOf").items)
    else if Field(s, "enum").Arr? && Field(s, "enum").items != [] then Literal(Field(s, "enum").items[0])
    else
      match KindOf(s)
      case Object => Fields(Properties(s))
      case Array => if Field(s, "items").Obj? then Single(Field(s, "items")) else Literal(Arr([Null]))
      case Number => Literal(Num(0))
      case Boolean => Literal(Bool(false))
      case Text => Literal(Str(StringPlaceholder(s)))
      case Other => if Field(s, "properties").Obj? then Fields(Properties(s)) else Literal(Str("<any>"))
  }

  lemma PlanIsSmaller(root: Json, s: Json)
    requires Known(root, s)
    ensures PlanOf(s).Merged? ==>
              forall i :: 0 <= i < |PlanOf(s).subs| ==> (s decreases to PlanOf(s).subs[i]) && Known(root, PlanOf(s).subs[i])
    ensures PlanOf(s).Fields? ==>
              forall k :: k in PlanOf(s).props ==> (s decreases to PlanOf(s).props[k]) && Known(root, PlanOf(s).props[k])
    ensures PlanOf(s).Single? ==> (s decreases to PlanOf(s).item) && Known(root, PlanOf(s).item)
  {
    hide RefsOf, KindOf;
    KnownField(root, s, "allOf");
    KnownField(root, s, "properties");
    KnownField(root, s, "items");
    match PlanOf(s)
    case Merged(subs) =>
      forall i | 0 <= i < |subs|
        ensures (s decreases to subs[i]) && Known(root, subs[i])
      {
        KnownItem(root, Field(s, "allOf"), i);
      }
    case Fields(props) =>
      forall k | k in props
        ensures (s decreases to props[k]) && Known(root, props[k])
      {
        KnownField(root, Field(s, "properties"), k);
      }
    case _ =>
  }

  // ----- the expansion relation -----

  lemma KnownProperties(root: Json, s: Json)
    requires Known(root, s)
    ensures forall k :: k in Properties(s) ==> Known(root, Properties(s)[k]) && (s decreases to Properties(s)[k])
  {
    hide RefsOf;
    KnownField(root, s, "properties");
    forall k | k in Properties(s)
      ensures Known(root, Properties(s)[k]) && (s decreases to Properties(s)[k])
    {
      KnownField(root, Field(s, "properties"), k);
    }
  }

  /** What one part of an allOf adds: the properties it resolves to. */
  ghost function Part(root: Json, sub: Json, seen: set<string>): (r: (map<string, Json>, set<string>))
    requires Known(root, sub)
    ensures seen <= r.1 && Unseen(root, r.1) <= Unseen(root, seen)
    ensures forall k :: k in r.0 ==> Known(root, r.0[k])
    ensures Unseen(root, r.1) == Unseen(root, seen) ==> forall k :: k in r.0 ==> (sub decreases to r.0[k])
  {
    hide RefsOf, Unseen;
    if !sub.Obj? then (map[], seen)
    else
      var found := Deref(root, sub, seen);
      KnownProperties(root, found.0);
      (Properties(found.0), found.1)
  }

  /** The properties of an allOf, a later part winning. If nothing new was seen, each lies below top. */
  ghost function Merge(root: Json, subs: seq<Json>, seen: set<string>, top: Json): (r: (map<string, Json>, set<string>))
    requires forall i :: 0 <= i < |subs| ==> Known(root, subs[i]) && (top decreases to subs[i])
    ensures seen <= r.1 && Unseen(root, r.1) <= Unseen(root, seen)
    ensures forall k :: k in r.0 ==> Known(root, r.0[k])
    ensures Unseen(root, r.1) == Unseen(root, seen) ==> forall k :: k in r.0 ==> (top decreases to r.0[k])
    decreases |subs|
  {
    hide RefsOf, Unseen, Part, Known;
    if subs == [] then (map[], seen)
    else
      var before := Merge(root, subs[..|subs| - 1], seen, top);
      var part := Part(root, subs[|subs| - 1], before.1);
      (before.0 + part.0, part.1)
  }

  /** Expanding schema with seen can give v and leave after. */
  ghost predicate Can(root: Json, schema: Json, seen: set<string>, v: Json, after: set<string>)
    requires Known(root, schema)
    decreases Unseen(root, seen), schema, 2, 0
  {
    hide RefsOf, Unseen;
    var found := Deref(root, schema, seen);
    if Ref(schema).Some? && found == (CUT, seen) then v == Obj(map[]) && after == seen
    else CanPlan(root, found.0, found.1, v, after)
  }

  ghost predicate CanPlan(root: Json, s: Json, seen: set<string>, v: Json, after: set<string>)
    requires Known(root, s)
    decreases Unseen(root, seen), s, 1, 0
  {
    hide RefsOf, Unseen, PlanOf;
    PlanIsSmaller(root, s);
    match PlanOf(s)
    case Literal(lit) => v == lit && after == seen
    case Merged(subs) =>
      var m := Merge(root, subs, seen, s);
      var top := if Unseen(root, m.1) == Unseen(root, seen) then s else Obj(m.0);
      v.Obj? && CanFields(root, m.0, m.1, v.fields, after, top)
    case Fields(props) => v.Obj? && CanFields(root, props, seen, v.fields, after, s)
    case Single(item) => v.Arr? && |v.items| == 1 && Can(root, item, seen, v.items[0], after)
  }

  /** The properties are expanded one by one, in any order, sharing what has been seen. */
  ghost predicate CanFields(root: Json, props: map<string, Json>, seen: set<string>, out: map<string, Json>,
                            after: set<string>, top: Json)
    requires forall k :: k in props ==> Known(root, props[k]) && (top decreases to props[k])
    decreases Unseen(root, seen), top, 0, |props|
  {
    hide RefsOf, Unseen;
    if props == map[] then out == map[] && after == seen
    else
      exists k, mid ::
        && k in props && k in out && seen <= mid
        && (if props[k].Obj? then Can(root, props[k], seen, out[k], mid) else out[k] == Null && mid == seen)
        && (UnseenShrinks(root, seen, mid); CanFields(root, props - {k}, mid, out - {k}, after, top))
  }

  lemma {:induction false} CanFieldsKeys(root: Json, props: map<string, Json>, seen: set<string>,
                                         out: map<string, Json>, after: set<string>, top: Json)
    requires forall k :: k in props ==> Known(root, props[k]) && (top decreases to props[k])
    requires CanFields(root, props, seen, out, after, top)
    ensures out.Keys == props.Keys
    decreases |props|
  {
    hide RefsOf, Unseen, Can;
    if props != map[] {
      var k, mid :| k in props && k in out && seen <= mid
        && (UnseenShrinks(root, seen, mid); CanFields(root, props - {k}, mid, out - {k}, after, top));
      CanFieldsKeys(root, props - {k}, mid, out - {k}, after, top);
      assert props.Keys == (props - {k}).Keys + {k} && out.Keys == (out - {k}).Keys + {k};
    }
  }

  /** One more property expanded before the others. */
  lemma FieldStep(root: Json, props: map<string, Json>, k: string, seen: set<string>, mid: set<string>, v: Json,
                  rest: map<string, Json>, after: set<string>, top: Json)
    requires forall x :: x in props ==> Known(root, props[x]) && (top decreases to props[x])
    requires k in props && seen <= mid
    requires if props[k].Obj? then Can(root, props[k], seen, v, mid) else v == Null && mid == seen
    requires CanFields(root, props - {k}, mid, rest, after, top)
    ensures CanFields(root, props, seen, rest[k := v], after, top)
  {
    hide RefsOf, Unseen, Can;
    CanFieldsKeys(root, props - {k}, mid, rest, after, top);
    var out := rest[k := v];
    assert out - {k} == rest;
    UnseenShrinks(root, seen, mid);
  }

  lemma NoFieldsOnly(root: Json, seen: set<string>, out: map<string, Json>, after: set<string>, top: Json)
    ensures CanFields(root, map[], seen, out, after, top) ==> out == map[] && after == seen
  {
  }

  /** Finishing the properties left over, from here, finishes all of them from the start. */
  ghost predicate Completes(root: Json, props: map<string, Json>, start: set<string>, left: map<string, Json>,
                            seen: set<string>, out: map<string, Json>, top: Json)
    requires forall k :: k in props ==> Known(root, props[k]) && (top decreases to props[k])
    requires forall k :: k in left ==> Known(root, left[k]) && (top decreases to left[k])
  {
    forall rest, after :: CanFields(root, left, seen, rest, after, top)
                          ==> CanFields(root, props, start, out + rest, after, top)
  }

  lemma CompletesAtStart(root: Json, props: map<string, Json>, start: set<string>, top: Json)
    requires forall k :: k in props ==> Known(root, props[k]) && (top decreases to props[k])
    ensures Completes(root, props, start, props, start, map[], top)
  {
    hide RefsOf, Unseen, CanFields;
    forall rest, after | CanFields(root, props, start, rest, after, top)
      ensures CanFields(root, props, start, map[] + rest, after, top)
    {
      assert map[] + rest == rest;
    }
  }

  lemma CompletesStep(root: Json, props: map<string, Json>, start: set<string>, left: map<string, Json>,
                      seen: set<string>, out: map<string, Json>, top: Json, k: string, v: Json, mid: set<string>)
    requires forall x :: x in props ==> Known(root, props[x]) && (top decreases to props[x])
    requires forall x :: x in left ==> Known(root, left[x]) && (top decreases to left[x])
    requires Completes(root, props, start, left, seen, out, top)
    requires k in left && seen <= mid
    requires if left[k].Obj? then Can(root, left[k], seen, v, mid) else v == Null && mid == seen
    ensures Completes(root, props, start, left - {k}, mid, out[k := v], top)
  {
    hide RefsOf, Unseen, CanFields, Can, Known;
    forall rest, after | CanFields(root, left - {k}, mid, rest, after, top)
      ensures CanFields(root, props, start, out[k := v] + rest, after, top)
    {
      FieldStep(root, left, k, seen, mid, v, rest, after, top);
      CanFieldsKeys(root, left - {k}, mid, rest, after, top);
      assert out + rest[k := v] == out[k := v] + rest;
    }
  }

  lemma CompletesAtEnd(root: Json, props: map<string, Json>, start: set<string>, seen: set<string>,
                       out: map<string, Json>, top: Json)
    requires forall k :: k in props ==> Known(root, props[k]) && (top decreases to props[k])
    requires Completes(root, props, start, map[], seen, out, top)
    ensures CanFields(root, props, start, out, seen, top)
  {
    assert CanFields(root, map[], seen, map[], seen, top);
    assert out + map[] == out;
  }

  lemma CutPlan()
    ensures PlanOf(CUT) == Fields(map[])
  {
  }

  // ----- the recursive methods over the shared set -----

  class Expander {
    const root: Json
    var seen: set<string>

    constructor (doc: Json)
      ensures root == doc && seen == {}
    {
      root := doc;
      seen := {};
    }

    /** The loop over the segments of a reference. */
    method Resolve(ref: string) returns (r: Json)
      ensures r == Target(root, ref)
    {
      var segs := Pointer(ref);
      var cur := root;
      for i := 0 to |segs|
        invariant Walk(root, segs) == Walk(cur, segs[i..])
      {
        assert segs[i..][1..] == segs[i + 1..];
        if !cur.Obj? {
          return Null;
        }
        cur := Field(cur, segs[i]);
      }
      r := if cur.Obj? then cur else Null;
    }

    method DerefNode(node: Json) returns (r: Json)
      requires Known(root, node)
      modifies this
      ensures (r, seen) == Deref(root, node, old(seen))
      decreases Unseen(root, seen)
    {
      hide RefsOf, Unseen, Walk;
      match Ref(node) {
        case None => r := node;
        case Some(ref) =>
          if ref in seen {
            r := CUT;
          } else {
            Hop(root, node, seen);
            seen := seen + {ref};
            var next := Resolve(ref);
            r := DerefNode(next);
          }
      }
    }

    method MergeParts(subs: seq<Json>, ghost top: Json) returns (merged: map<string, Json>)
      requires forall i :: 0 <= i < |subs| ==> Known(root, subs[i]) && (top decreases to subs[i])
      modifies this
      ensures (merged, seen) == Merge(root, subs, old(seen), top)
    {
      hide RefsOf, Unseen, Known, Deref;
      merged := map[];
      for i := 0 to |subs|
        invariant (merged, seen) == Merge(root, subs[..i], old(seen), top)
      {
        assert subs[..i + 1][..i] == subs[..i] && merged + map[] == merged;
        if subs[i].Obj? {
          var part := DerefNode(subs[i]);
          if Field(part, "properties").Obj? {
            merged := merged + Field(part, "properties").fields;
          }
        }
      }
      assert subs[..|subs|] == subs;
    }

    method ExampleObject(props: map<string, Json>, ghost top: Json) returns (out: map<string, Json>)
      requires forall k :: k in props ==> Known(root, props[k]) && (top decreases to props[k])
      modifies this
      ensures old(seen) <= seen
      ensures CanFields(root, props, old(seen), out, seen, top)
      decreases Unseen(root, seen), top, 0, |props|
    {
      hide RefsOf, Unseen, Can, CanFields, Known, Completes;
      ghost var start := seen;
      out := map[];
      var left := props;
      CompletesAtStart(root, props, start, top);
      while left != map[]
        invariant start <= seen && forall k :: k in left ==> k in props && left[k] == props[k]
        invariant Completes(root, props, start, left, seen, out, top)
        decreases |left|
      {
        var k :| k in left;
        ghost var was := seen;
        UnseenShrinks(root, start, seen);
        var v := Null;
        if left[k].Obj? {
          v := Example(left[k]);
        }
        CompletesStep(root, props, start, left, was, out, top, k, v, seen);
        out := out[k := v];
        left := left - {k};
      }
      CompletesAtEnd(root, props, start, seen, out, top);
    }

    method Example(schema: Json) returns (v: Json)
      requires Known(root, schema)
      modifies this
      ensures old(seen) <= seen
      ensures Can(root, schema, old(seen), v, seen)
      decreases Unseen(root, seen), schema, 2, 0
    {
      hide RefsOf, Unseen, Deref, CanFields, Known, KindOf;
      ghost var start := seen;
      var s := DerefNode(schema);
      CutPlan();
      PlanIsSmaller(root, s);
      ghost var top := if Unseen(root, seen) == Unseen(root, start) then schema else s;
      if !s.Obj? {
        v := Null;
      } else if "example" in s.fields {
        v := s.fields["example"];
      } else if "default" in s.fields {
        v := s.fields["default"];
      } else if Field(s, "allOf").Arr? {
        ghost var mid := seen;
        var merged := MergeParts(Field(s, "allOf").items, s);
        ghost var above := if Unseen(root, seen) == Unseen(root, mid) then s else Obj(merged);
        var out := ExampleObject(merged, above);
        v := Obj(out);
      } else if Field(s, "enum").Arr? && Field(s, "enum").items != [] {
        v := Field(s, "enum").items[0];
      } else {
        match KindOf(s)
        case Object =>
          ghost var mid := seen;
          var out := ExampleObject(Properties(s), top);
          if top != s {
            NoFieldsOnly(root, mid, out, seen, top);
          }
          v := Obj(out);
        case Array =>
          if Field(s, "items").Obj? {
            var item := Example(Field(s, "items"));
            v := Arr([item]);
          } else {
            v := Arr([Null]);
          }
        case Number => v := Num(0);
        case Boolean => v := Bool(false);
        case Text => v := Str(StringPlaceholder(s));
        case Other =>
          if Field(s, "properties").Obj? {
            var out := ExampleObject(Properties(s), s);
            v := Obj(out);
          } else {
            v := Str("<any>");
          }
      }
    }
  }

  /** A request body's JSON schema, expanded with nothing seen yet; nil if there is none. */
  method RequestBodyExample(root: Json, node: Json) returns (v: Json)
    requires Known(root, node)
    ensures var schema := Field(Field(Field(node, "content"), "application/json"), "schema");
            if schema.Obj? then Known(root, schema) && exists after :: Can(root, schema, {}, v, after) else v == Null
  {
    hide RefsOf, Can, Known;
    var content := Field(node, "content");
    var json := Field(content, "application/json");
    var schema := Field(json, "schema");
    KnownField(root, node, "content");
    KnownField(root, content, "application/json");
    KnownField(root, json, "schema");
    if schema.Obj? {
      var e := new Expander(root);
      v := e.Example(schema);
    } else {
      v := Null;
    }
  }
}
